/** The sink gateway: the AnkiConnect actions the engine uses, with the
    transport replaced by the decoded reply of each request. */
module Anki {
  import opened Wrappers
  import opened Errors
  import Notion

  /** A decoded JSON value, as far as the gateway inspects one. */
  datatype Json =
    | JNull
    | JBool(b: bool)
    | JNumber(n: int)
    | JString(s: string)
    | JList(items: seq<Json>)
    | JObject

  /** The reply to one request: the transport failed (no connection, a
      status other than 200, a body that does not decode), or the decoded
      `{result, error}` object, where `error` is JNull when none was set. */
  datatype Reply = Unreachable | Answer(result: Json, error: Json)

  datatype AnkiNote = AnkiNote(deckName: string, modelName: string,
                               fields: map<string, string>, tags: seq<string>)

  datatype CardTemplate = CardTemplate(name: string, front: string, back: string)

  /** The AnkiConnect actions sent, with their parameters. */
  datatype Request =
    | VersionRequest
    | DeckNamesRequest
    | CreateDeckRequest(deck: string)
    | ModelNamesRequest
    | CreateModelRequest(modelName: string, inOrderFields: seq<string>, cardTemplates: seq<CardTemplate>)
    | CanAddNotesRequest(notes: seq<AnkiNote>)
    | AddNotesRequest(notes: seq<AnkiNote>)

  /** The configured gateway: endpoint, deck and model. */
  datatype Anki = Anki(connectURL: string, deckName: string, modelName: string)

  /** The outcome of a gateway operation: its error, if any, and the
      requests it sent, in order. */
  datatype Exchange = Exchange(err: Option<Error>, sent: seq<Request>)

  const NoteTags := ["notion"]
  const DefaultCardTemplate := CardTemplate("Card 2", "{{}}", "{{}}")

  /** The note built for a field mapping. */
  function NoteOf(anki: Anki, fields: map<string, string>): AnkiNote
  {
    AnkiNote(anki.deckName, anki.modelName, fields, NoteTags)
  }

  /** The reply carries a list result and no error. */
  predicate ListReply(reply: Reply)
  {
    reply.Answer? && reply.error == JNull && reply.result.JList?
  }

  /** CheckAnkiConnect: only a transport failure is wrapped as the
      connection sentinel; an error in the reply is a plain error. */
  function CheckAnkiConnect(reply: Reply): (x: Exchange)
    ensures x.sent == [VersionRequest]
    ensures x.err == Some(AnkiConnectFailed) <==> reply.Unreachable?
    ensures x.err.None? <==> reply.Answer? && reply.error == JNull
  {
    var err :=
      if reply.Unreachable? then Some(AnkiConnectFailed)
      else if reply.error != JNull then Some(AnkiCheckError)
      else None;
    Exchange(err, [VersionRequest])
  }

  /** CreateDeck: an empty name is refused before any request. */
  function CreateDeck(deckName: string, reply: Reply): (x: Exchange)
    ensures deckName == "" <==> x.sent == []
    ensures deckName == "" ==> x.err == Some(NoDeckName)
    ensures deckName != "" ==> x.sent == [CreateDeckRequest(deckName)]
    ensures x.err.None? <==> deckName != "" && reply.Answer? && reply.error == JNull
  {
    if deckName == "" then Exchange(Some(NoDeckName), [])
    else if reply.Unreachable? then Exchange(Some(DeckCreateFailed), [CreateDeckRequest(deckName)])
    else if reply.error != JNull then Exchange(Some(DeckCreateError), [CreateDeckRequest(deckName)])
    else Exchange(None, [CreateDeckRequest(deckName)])
  }

  /** EnsureDeckExists, as a reference definition. */
  function DeckExchange(anki: Anki, listReply: Reply, createReply: Reply): Exchange
  {
    if anki.deckName == "" then Exchange(Some(NoDeckName), [])
    else if listReply.Unreachable? then Exchange(Some(DeckListFailed), [DeckNamesRequest])
    else if listReply.error != JNull then Exchange(Some(DeckListError), [DeckNamesRequest])
    else if !listReply.result.JList? then Exchange(Some(InvalidResponseFormat), [DeckNamesRequest])
    else if JString(anki.deckName) in listReply.result.items then Exchange(None, [DeckNamesRequest])
    else
      var create := CreateDeck(anki.deckName, createReply);
      Exchange(create.err, [DeckNamesRequest] + create.sent)
  }

  /** EnsureDeckExists: list the decks, scan for the configured name, and
      create the deck only when the list lacks it. */
  method EnsureDeckExists(anki: Anki, listReply: Reply, createReply: Reply)
    returns (err: Option<Error>, sent: seq<Request>)
    ensures Exchange(err, sent) == DeckExchange(anki, listReply, createReply)
    ensures anki.deckName == "" ==> err == Some(NoDeckName) && sent == []
    ensures ListReply(listReply) && JString(anki.deckName) in listReply.result.items && anki.deckName != "" ==>
      err.None? && sent == [DeckNamesRequest]
    ensures ListReply(listReply) && JString(anki.deckName) !in listReply.result.items && anki.deckName != "" ==>
      sent == [DeckNamesRequest, CreateDeckRequest(anki.deckName)]
        && err == CreateDeck(anki.deckName, createReply).err
    ensures anki.deckName != "" && !ListReply(listReply) ==> err.Some? && sent == [DeckNamesRequest]
  {
    var deckName := anki.deckName;
    if deckName != "" {
      sent := [DeckNamesRequest];
      if listReply.Unreachable? {
        return Some(DeckListFailed), sent;
      }
      if listReply.error != JNull {
        return Some(DeckListError), sent;
      }
      if !listReply.result.JList? {
        return Some(InvalidResponseFormat), sent;
      }
      var deckNames := listReply.result.items;
      var i := 0;
      while i < |deckNames|
        invariant 0 <= i <= |deckNames|
        invariant JString(deckName) !in deckNames[..i]
      {
        if deckNames[i] == JString(deckName) {
          return None, sent;
        }
        assert deckNames[..i + 1] == deckNames[..i] + [deckNames[i]];
        i := i + 1;
      }
      assert deckNames[..i] == deckNames;
      var create := CreateDeck(deckName, createReply);
      return create.err, sent + create.sent;
    }
    return Some(NoDeckName), [];
  }

  /** createModel: an empty model name is refused before any request. */
  function CreateModel(modelName: string, fields: seq<string>, reply: Reply): (x: Exchange)
    ensures modelName == "" <==> x.sent == []
    ensures modelName == "" ==> x.err == Some(NoModelName)
    ensures modelName != "" ==> x.sent == [CreateModelRequest(modelName, fields, [DefaultCardTemplate])]
    ensures x.err.None? <==> modelName != "" && reply.Answer? && reply.error == JNull
  {
    if modelName == "" then Exchange(Some(NoModelName), [])
    else
      var request := CreateModelRequest(modelName, fields, [DefaultCardTemplate]);
      if reply.Unreachable? then Exchange(Some(ModelCreateFailed), [request])
      else if reply.error != JNull then Exchange(Some(ModelCreateError), [request])
      else Exchange(None, [request])
  }

  /** The error of EnsureModelExists, as a reference definition; it does not
      depend on the order in which the field names are listed. */
  function ModelError(anki: Anki, listReply: Reply, createReply: Reply): Option<Error>
  {
    if listReply.Unreachable? then Some(ModelListFailed)
    else if listReply.error != JNull then Some(ModelListError)
    else if !listReply.result.JList? then Some(InvalidResponseFormat)
    else if JString(anki.modelName) in listReply.result.items then None
    else CreateModel(anki.modelName, [], createReply).err
  }

  /** The field names of a model: each property name exactly once. */
  ghost predicate Enumerates(fields: seq<string>, names: set<string>)
  {
    && (set f | f in fields) == names
    && (forall i, j :: 0 <= i < j < |fields| ==> fields[i] != fields[j])
  }

  /** EnsureModelExists: list the models, scan for the configured name, and
      otherwise create the model with every property name of the first page
      as a field, in the map's iteration order. There is no empty-name test
      before the list: an empty name is refused by createModel. */
  method EnsureModelExists(anki: Anki, pageProperties: map<string, Notion.Property>,
                           listReply: Reply, createReply: Reply)
    returns (err: Option<Error>, sent: seq<Request>)
    ensures err == ModelError(anki, listReply, createReply)
    ensures |sent| >= 1 && sent[0] == ModelNamesRequest
    ensures |sent| <= 2
    ensures |sent| == 2 <==>
      ListReply(listReply) && JString(anki.modelName) !in listReply.result.items && anki.modelName != ""
    ensures |sent| == 2 ==>
      && sent[1].CreateModelRequest?
      && sent[1].modelName == anki.modelName
      && sent[1].cardTemplates == [DefaultCardTemplate]
      && Enumerates(sent[1].inOrderFields, pageProperties.Keys)
  {
    var configModelName := anki.modelName;
    sent := [ModelNamesRequest];
    if listReply.Unreachable? {
      return Some(ModelListFailed), sent;
    }
    if listReply.error != JNull {
      return Some(ModelListError), sent;
    }
    if !listReply.result.JList? {
      return Some(InvalidResponseFormat), sent;
    }
    var modelNames := listReply.result.items;
    var i := 0;
    while i < |modelNames|
      invariant 0 <= i <= |modelNames|
      invariant JString(configModelName) !in modelNames[..i]
    {
      if modelNames[i] == JString(configModelName) {
        return None, sent;
      }
      assert modelNames[..i + 1] == modelNames[..i] + [modelNames[i]];
      i := i + 1;
    }
    assert modelNames[..i] == modelNames;
    var fields: seq<string> := [];
    var remaining := pageProperties.Keys;
    while remaining != {}
      invariant remaining <= pageProperties.Keys
      invariant forall f :: f in fields <==> f in pageProperties.Keys && f !in remaining
      invariant forall i, j :: 0 <= i < j < |fields| ==> fields[i] != fields[j]
      decreases remaining
    {
      var name :| name in remaining;
      fields := fields + [name];
      remaining := remaining - {name};
    }
    var create := CreateModel(configModelName, fields, createReply);
    err, sent := create.err, sent + create.sent;
  }

  /** The addNotes request for a batch of field mappings. */
  function AddNotesFor(anki: Anki, fields: seq<map<string, string>>): Request
  {
    AddNotesRequest(seq(|fields|, i requires 0 <= i < |fields| => NoteOf(anki, fields[i])))
  }

  /** AddNotesToDeck: one note per field mapping, in order. Failures of the
      request are only logged, so the result is always nil. */
  method AddNotesToDeck(anki: Anki, fields: seq<map<string, string>>)
    returns (err: Option<Error>, sent: Request)
    ensures err.None?
    ensures sent == AddNotesFor(anki, fields)
    ensures sent.AddNotesRequest? && |sent.notes| == |fields|
    ensures forall i :: 0 <= i < |fields| ==>
      && sent.notes[i].deckName == anki.deckName
      && sent.notes[i].modelName == anki.modelName
      && sent.notes[i].fields == fields[i]
      && sent.notes[i].tags == ["notion"]
  {
    var ankiNotes: seq<AnkiNote> := [];
    for i := 0 to |fields|
      invariant |ankiNotes| == i
      invariant forall k :: 0 <= k < i ==> ankiNotes[k] == NoteOf(anki, fields[k])
    {
      ankiNotes := ankiNotes + [NoteOf(anki, fields[i])];
    }
    return None, AddNotesRequest(ankiNotes);
  }

  /** How CanAddNotes reads a reply, as a reference definition. */
  function CanAddVerdict(reply: Reply): (bool, Option<Error>)
  {
    if reply.Unreachable? then (false, Some(CanAddFailed))
    else if reply.error != JNull then (false, Some(CanAddError))
    else if !reply.result.JList? then (false, Some(InvalidResponseFormat))
    else if |reply.result.items| == 0 then (false, Some(NoIndicators))
    else (reply.result.items[0] == JBool(true), None)
  }

  /** CanAddNotes: ask about the one note of `fields`; each element of the
      result list becomes true exactly when it is the JSON value true, and
      the first of them is the answer. */
  method CanAddNotes(anki: Anki, fields: map<string, string>, reply: Reply)
    returns (canAdd: bool, err: Option<Error>, sent: Request)
    ensures (canAdd, err) == CanAddVerdict(reply)
    ensures sent == CanAddNotesRequest([NoteOf(anki, fields)])
    ensures err.None? <==> ListReply(reply) && |reply.result.items| > 0
    ensures err.None? ==> (canAdd <==> reply.result.items[0] == JBool(true))
    ensures err.Some? ==> !canAdd
  {
    sent := CanAddNotesRequest([NoteOf(anki, fields)]);
    if reply.Unreachable? {
      return false, Some(CanAddFailed), sent;
    }
    if reply.error != JNull {
      return false, Some(CanAddError), sent;
    }
    if !reply.result.JList? {
      return false, Some(InvalidResponseFormat), sent;
    }
    var result := reply.result.items;
    var indicators: seq<bool> := [];
    for i := 0 to |result|
      invariant |indicators| == i
      invariant forall k :: 0 <= k < i ==> indicators[k] == (result[k] == JBool(true))
    {
      if result[i] == JBool(true) {
        indicators := indicators + [true];
      } else {
        indicators := indicators + [false];
      }
    }
    if |indicators| == 0 {
      return false, Some(NoIndicators), sent;
    }
    return indicators[0], None, sent;
  }
}
