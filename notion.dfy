/** The source-store side: flattening typed Notion properties into strings,
    building the typed write-back, paginated querying with error
    classification, and the client state that carries the sync cursor. */
module Notion {
  import opened Wrappers
  import opened Text
  import opened Errors

  /** A typed database property of a page, as the Notion API returns it.
      Rich-text arrays are given by the plain text of each element;
      select options by their names. */
  datatype Property =
    | TitleProp(title: seq<string>)
    | RichTextProp(richText: seq<string>)
    | SelectProp(select: Option<string>)
    | MultiSelectProp(multiSelect: seq<string>)
    | UrlProp(url: Option<string>)
    | OtherProp(kind: string)   // number, date, checkbox, ...: not flattened

  /** page.Properties: nil, the properties of a database page, or the
      properties of a page outside any database. */
  datatype PageProperties =
    | NoProperties
    | DatabaseProperties(props: map<string, Property>)
    | StandaloneProperties

  datatype Page = Page(id: string, properties: PageProperties)

  /** The placeholder written for a property with no text. */
  const Placeholder := "-"

  /** One hundred hours, in seconds: how far before "now" the cursor starts. */
  const InitialLookback := 100 * 3600

  // ---------------------------------------------------------------------
  // Flattening (ExtractPropertiesFromPage)
  // ---------------------------------------------------------------------

  /** The non-empty strings of `xs`, in their original order. */
  function NonEmpty(xs: seq<string>): (r: seq<string>)
    ensures |r| <= |xs|
    ensures forall v :: v in r ==> v != "" && v in xs
    ensures forall x :: x in xs && x != "" ==> x in r
    decreases |xs|
  {
    if xs == [] then []
    else
      var front := NonEmpty(xs[..|xs| - 1]);
      assert xs == xs[..|xs| - 1] + [xs[|xs| - 1]];
      if xs[|xs| - 1] != "" then front + [xs[|xs| - 1]] else front
  }

  /** The text a property contributes to the field mapping, or None when the
      property gets no key at all. */
  function Flatten(p: Property): Option<string>
  {
    match p
    case TitleProp(title) =>
      if |title| > 0 then (if title[0] != "" then Some(title[0]) else None)
      else Some(Placeholder)
    case UrlProp(url) =>
      if url.Some? && url.value != "" then Some(url.value) else Some(Placeholder)
    case SelectProp(select) =>
      if select.Some? && select.value != "" then Some(select.value) else Some(Placeholder)
    case MultiSelectProp(options) =>
      var values := NonEmpty(options);
      if |values| > 0 then Some(Join(values, ListSeparator)) else Some(Placeholder)
    case RichTextProp(texts) =>
      var values := NonEmpty(texts);
      if |values| > 0 then Some(Join(values, ListSeparator)) else Some(Placeholder)
    case OtherProp(_) => None
  }

  /** The database properties of a page; nil and non-database properties
      have none. */
  function DatabasePropsOf(page: Page): map<string, Property>
  {
    if page.properties.DatabaseProperties? then page.properties.props else map[]
  }

  /** The field mapping of a page, as a reference definition. */
  function FieldsOf(page: Page): (fields: map<string, string>)
  {
    var props := DatabasePropsOf(page);
    map name | name in props && Flatten(props[name]).Some? :: Flatten(props[name]).value
  }

  /** The loop that gathers the non-empty names of a multi-select or the
      non-empty plain texts of a rich-text property. */
  method CollectNonEmpty(items: seq<string>) returns (values: seq<string>)
    ensures values == NonEmpty(items)
  {
    values := [];
    var i := 0;
    while i < |items|
      invariant 0 <= i <= |items|
      invariant values == NonEmpty(items[..i])
    {
      assert items[..i + 1][..i] == items[..i];
      if items[i] != "" {
        values := values + [items[i]];
      }
      i := i + 1;
    }
    assert items[..|items|] == items;
  }

  /** ExtractPropertiesFromPage: one key per property that has a textual
      representation, filled in a loop over the property map. */
  method ExtractPropertiesFromPage(page: Page) returns (properties: map<string, string>)
    ensures page.properties.NoProperties? || page.properties.StandaloneProperties? ==> properties == map[]
    ensures forall name :: name in properties ==>
      name in DatabasePropsOf(page) && !DatabasePropsOf(page)[name].OtherProp?
    ensures forall name :: name in DatabasePropsOf(page) ==>
      (name in properties <==> Flatten(DatabasePropsOf(page)[name]).Some?)
    ensures forall name :: name in properties ==>
      Flatten(DatabasePropsOf(page)[name]) == Some(properties[name])
    ensures properties == FieldsOf(page)
  {
    properties := map[];
    if page.properties.NoProperties? {
      return;
    }
    if !page.properties.DatabaseProperties? {
      return;
    }
    var props := page.properties.props;
    var remaining := props.Keys;
    while remaining != {}
      invariant remaining <= props.Keys
      invariant forall name :: name in properties ==> name in props && name !in remaining
      invariant forall name :: name in props && name !in remaining ==>
        (name in properties <==> Flatten(props[name]).Some?)
      invariant forall name :: name in properties ==> Flatten(props[name]) == Some(properties[name])
      decreases remaining
    {
      var name :| name in remaining;
      var prop := props[name];
      match prop {
        case TitleProp(title) =>
          if |title| > 0 {
            var text := title[0];
            if text != "" {
              properties := properties[name := text];
            }
          } else {
            properties := properties[name := Placeholder];
          }
        case UrlProp(url) =>
          if url.Some? && url.value != "" {
            properties := properties[name := url.value];
          } else {
            properties := properties[name := Placeholder];
          }
        case SelectProp(select) =>
          if select.Some? && select.value != "" {
            properties := properties[name := select.value];
          } else {
            properties := properties[name := Placeholder];
          }
        case MultiSelectProp(options) =>
          var values := CollectNonEmpty(options);
          if |values| > 0 {
            properties := properties[name := Join(values, ListSeparator)];
          } else {
            properties := properties[name := Placeholder];
          }
        case RichTextProp(texts) =>
          var values := CollectNonEmpty(texts);
          if |values| > 0 {
            properties := properties[name := Join(values, ListSeparator)];
          } else {
            properties := properties[name := Placeholder];
          }
        case OtherProp(_) =>
      }
      remaining := remaining - {name};
    }
  }

  // ---------------------------------------------------------------------
  // Write-back (UpdatePageOfDatabase)
  // ---------------------------------------------------------------------

  /** A property as sent in an update, typed after the schema. */
  datatype PropertyUpdate =
    | TitleUpdate(content: string)
    | RichTextUpdate(content: string)
    | SelectUpdate(name: string)
    | MultiSelectUpdate(names: seq<string>)
    | UrlUpdate(url: string)
    | EmptyUpdate   // the zero property: the schema has no such name or another type

  /** One UpdatePage call: the page and its update parameters. */
  datatype PageUpdate = PageUpdate(pageId: string, params: map<string, PropertyUpdate>)

  /** How a string value is typed for the schema property of the same name;
      a missing name reads as the zero property, whose type is none of the
      five. */
  function EncodeValue(schema: map<string, Property>, name: string, value: string): PropertyUpdate
  {
    if name !in schema then EmptyUpdate
    else match schema[name]
      case TitleProp(_) => TitleUpdate(value)
      case RichTextProp(_) => RichTextUpdate(value)
      case SelectProp(_) => SelectUpdate(value)
      case MultiSelectProp(_) => MultiSelectUpdate(Split(value, ListSeparator))
      case UrlProp(_) => UrlUpdate(value)
      case OtherProp(_) => EmptyUpdate
  }

  /** The update UpdatePageOfDatabase sends, as a reference definition. */
  function UpdateFor(page: Page, props: map<string, string>, schema: map<string, Property>): PageUpdate
  {
    PageUpdate(page.id, map name | name in props :: EncodeValue(schema, name, props[name]))
  }

  /** UpdatePageOfDatabase: the parameters have exactly the keys of `props`,
      each value typed after the schema. The reply of UpdatePage is not part
      of the model. */
  method UpdatePageOfDatabase(page: Page, props: map<string, string>, schema: map<string, Property>)
    returns (update: PageUpdate)
    ensures update == UpdateFor(page, props, schema)
    ensures update.pageId == page.id
    ensures update.params.Keys == props.Keys
    ensures forall name :: name in update.params ==>
      update.params[name] == EncodeValue(schema, name, props[name])
  {
    var params: map<string, PropertyUpdate> := map[];
    var remaining := props.Keys;
    while remaining != {}
      invariant remaining <= props.Keys
      invariant params.Keys == props.Keys - remaining
      invariant forall name :: name in params ==> params[name] == EncodeValue(schema, name, props[name])
      decreases remaining
    {
      var name :| name in remaining;
      var value := props[name];
      var property := EmptyUpdate;
      if name in schema {
        match schema[name] {
          case TitleProp(_) => property := TitleUpdate(value);
          case RichTextProp(_) => property := RichTextUpdate(value);
          case SelectProp(_) => property := SelectUpdate(value);
          case MultiSelectProp(_) =>
            var options := Split(value, ListSeparator);
            var names: seq<string> := [];
            for k := 0 to |options|
              invariant names == options[..k]
            {
              names := names + [options[k]];
            }
            property := MultiSelectUpdate(names);
          case UrlProp(_) => property := UrlUpdate(value);
          case OtherProp(_) =>
        }
      }
      params := params[name := property];
      remaining := remaining - {name};
    }
    update := PageUpdate(page.id, params);
  }

  /** How an update reads back once the store has applied it: the property
      then holds the one rich-text element, option or URL that was sent. */
  function Applied(u: PropertyUpdate, before: Property): Property
  {
    match u
    case TitleUpdate(c) => TitleProp([c])
    case RichTextUpdate(c) => RichTextProp([c])
    case SelectUpdate(n) => SelectProp(Some(n))
    case MultiSelectUpdate(ns) => MultiSelectProp(ns)
    case UrlUpdate(v) => UrlProp(Some(v))
    case EmptyUpdate => before
  }

  /** Writing back the flattened value of a property and reading it again
      gives the same value, as long as no multi-select option contains ", ". */
  lemma {:induction false} WriteBackRoundTrip(schema: map<string, Property>, name: string)
    requires name in schema && Flatten(schema[name]).Some?
    requires schema[name].MultiSelectProp? ==>
      forall o :: o in schema[name].multiSelect ==> !Contains(o, ListSeparator)
    ensures var v := Flatten(schema[name]).value;
      Flatten(Applied(EncodeValue(schema, name, v), schema[name])) == Some(v)
  {
    var v := Flatten(schema[name]).value;
    match schema[name]
    case MultiSelectProp(options) =>
      var values := NonEmpty(options);
      if |values| > 0 {
        SplitJoin(values);
        assert NonEmpty(values) == values by { NonEmptyKeeps(values); }
      } else {
        assert Split(Placeholder, ListSeparator) == [Placeholder] by {
          assert !HasPrefix(Placeholder, ListSeparator);
          assert !HasPrefix(Placeholder[1..], ListSeparator);
        }
        assert NonEmpty([Placeholder]) == [Placeholder] by {
          assert [Placeholder][..0] == [];
        }
      }
    case RichTextProp(texts) =>
      assert v != "" by {
        var values := NonEmpty(texts);
        if |values| > 0 {
          assert values[0] in values;
          JoinNonEmpty(values, ListSeparator);
        }
      }
      assert NonEmpty([v]) == [v] by { assert [v][..0] == []; }
    case _ =>
  }

  /** Filtering a list without empty strings keeps it whole. */
  lemma {:induction false} NonEmptyKeeps(xs: seq<string>)
    requires forall x :: x in xs ==> x != ""
    ensures NonEmpty(xs) == xs
    decreases |xs|
  {
    if xs != [] {
      var front := xs[..|xs| - 1];
      assert forall x :: x in front ==> x in xs;
      assert xs[|xs| - 1] in xs;
      NonEmptyKeeps(front);
      assert xs == front + [xs[|xs| - 1]];
    }
  }

  /** The options of a multi-select, flattened and then written back, are
      the non-empty options in their original order. */
  lemma MultiSelectWriteBackRecoversOptions(schema: map<string, Property>, name: string)
    requires name in schema && schema[name].MultiSelectProp?
    requires |NonEmpty(schema[name].multiSelect)| > 0
    requires forall o :: o in schema[name].multiSelect ==> !Contains(o, ListSeparator)
    ensures EncodeValue(schema, name, Flatten(schema[name]).value)
      == MultiSelectUpdate(NonEmpty(schema[name].multiSelect))
  {
    SplitJoin(NonEmpty(schema[name].multiSelect));
  }

  // ---------------------------------------------------------------------
  // Querying (QueryNotionDatabase, QueryAllPages)
  // ---------------------------------------------------------------------

  /** The error the SDK call returns: an API error with its HTTP status, or
      any other failure (network, decoding). */
  datatype QueryError = ApiError(status: int) | RequestError

  /** One reply of the database query endpoint. */
  datatype QueryReply =
    | Answer(results: seq<Page>, hasMore: bool, nextCursor: string)
    | Refused(error: QueryError)

  /** One request of the database query endpoint: the database, the
      "edited after" filter and the start cursor. */
  datatype QueryRequest = QueryRequest(databaseId: string, editedAfter: int, startCursor: string)

  datatype QueryResult = QueryResult(pages: seq<Page>, schema: map<string, Property>)

  /** The error classification of QueryNotionDatabase. */
  function ClassifyQueryError(e: QueryError): (r: Error)
    ensures r == NotionAuthFailed <==> e == ApiError(401)
    ensures r == NotionDBNotFound <==> e == ApiError(404)
    ensures r == NotionAuthFailed || r == NotionDBNotFound || r == NotionQueryFailed
  {
    if e.ApiError? && e.status == 401 then NotionAuthFailed
    else if e.ApiError? && e.status == 404 then NotionDBNotFound
    else NotionQueryFailed
  }

  /** A reply after which QueryAllPages sends no further request. */
  predicate Stops(r: QueryReply)
  {
    r.Refused? || !r.hasMore
  }

  /** The store answers, along the replies given, with a last page or an
      error at some point. */
  predicate Terminates(replies: seq<QueryReply>)
    decreases |replies|
  {
    |replies| > 0 && (Stops(replies[0]) || Terminates(replies[1..]))
  }

  /** The position of the reply that ends the pagination. */
  function StopIndex(replies: seq<QueryReply>): (k: nat)
    requires Terminates(replies)
    ensures k < |replies| && Stops(replies[k])
    ensures forall j :: 0 <= j < k ==> !Stops(replies[j])
    decreases |replies|
  {
    if Stops(replies[0]) then 0 else 1 + StopIndex(replies[1..])
  }

  /** The results of the given replies, concatenated in order. */
  function Concat(replies: seq<QueryReply>): seq<Page>
    decreases |replies|
  {
    if replies == [] then []
    else
      var last := replies[|replies| - 1];
      Concat(replies[..|replies| - 1]) + (if last.Answer? then last.results else [])
  }

  /** The start cursor of the k-th request: empty at first, then the
      nextCursor of the previous reply. */
  function CursorBefore(replies: seq<QueryReply>, k: nat): string
    requires k <= |replies|
  {
    if k == 0 || !replies[k - 1].Answer? then "" else replies[k - 1].nextCursor
  }

  /** The properties of the first page, or none when there are no pages or
      the first page is not a database page. */
  function SchemaOf(pages: seq<Page>): map<string, Property>
  {
    if |pages| > 0 then DatabasePropsOf(pages[0]) else map[]
  }

  /** What QueryAllPages returns, as a reference definition: the pages of all
      replies up to the one that stops, or the classified error of that reply. */
  function AllPages(replies: seq<QueryReply>): Result<QueryResult, Error>
    requires Terminates(replies)
  {
    var k := StopIndex(replies);
    if replies[k].Refused? then Failure(ClassifyQueryError(replies[k].error))
    else
      var pages := Concat(replies[..k + 1]);
      Success(QueryResult(pages, SchemaOf(pages)))
  }

  /** The reference definition yields the first page's properties, and an
      error exactly when the stopping reply is refused. */
  lemma AllPagesShape(replies: seq<QueryReply>)
    requires Terminates(replies)
    ensures AllPages(replies).Failure? <==>
      (exists j :: 0 <= j < |replies| && replies[j].Refused? &&
        forall i :: 0 <= i < j ==> replies[i].Answer? && replies[i].hasMore)
    ensures AllPages(replies).Success? ==>
      AllPages(replies).value.schema == SchemaOf(AllPages(replies).value.pages)
  {
    var k := StopIndex(replies);
    if replies[k].Refused? {
      assert forall i :: 0 <= i < k ==> replies[i].Answer? && replies[i].hasMore;
    } else {
      forall j | 0 <= j < |replies| && replies[j].Refused?
        ensures exists i :: 0 <= i < j && !(replies[i].Answer? && replies[i].hasMore)
      {
        assert Stops(replies[j]);
        assert j != k && !(j < k);
        assert !(replies[k].Answer? && replies[k].hasMore);
      }
    }
  }

  /** The get1PasswordSecret prefix check: a reference without the op://
      prefix is the secret itself; otherwise the output of `op read`
      (supplied here), with surrounding white space removed. */
  function Get1PasswordSecret(reference: string, opRead: Result<string, string>): (r: Result<string, Error>)
    ensures !HasPrefix(reference, "op://") ==> r == Success(reference)
    ensures HasPrefix(reference, "op://") && opRead.Failure? ==> r == Failure(SecretReadFailed)
    ensures r.Failure? ==> r.error == SecretReadFailed
  {
    if !HasPrefix(reference, "op://") then Success(reference)
    else if opRead.Failure? then Failure(SecretReadFailed)
    else Success(TrimSpace(opRead.value))
  }

  /** NotionClient: the database, the token and the sync cursor, which
      sync moves forward. Times are seconds. */
  class NotionClient {
    const databaseId: string
    const token: string
    const pollInterval: int
    var lastSyncTime: int

    constructor (databaseId: string, token: string, pollInterval: int, lastSyncTime: int)
      ensures this.databaseId == databaseId && this.token == token
      ensures this.pollInterval == pollInterval && this.lastSyncTime == lastSyncTime
    {
      this.databaseId := databaseId;
      this.token := token;
      this.pollInterval := pollInterval;
      this.lastSyncTime := lastSyncTime;
    }

    /** QueryAllPages: request page after page, following nextCursor while
        hasMore holds; the first error ends the loop and is returned alone. */
    method QueryAllPages(replies: seq<QueryReply>) returns (r: Result<QueryResult, Error>, sent: seq<QueryRequest>)
      requires Terminates(replies)
      ensures r == AllPages(replies)
      ensures |sent| == StopIndex(replies) + 1
      ensures forall k :: 0 <= k < |sent| ==>
        sent[k] == QueryRequest(databaseId, lastSyncTime, CursorBefore(replies, k))
    {
      var allPages: seq<Page> := [];
      var cursor := "";
      var i := 0;
      sent := [];
      ghost var stop := StopIndex(replies);
      while true
        invariant 0 <= i <= stop
        invariant allPages == Concat(replies[..i])
        invariant cursor == CursorBefore(replies, i)
        invariant |sent| == i
        invariant forall k :: 0 <= k < i ==>
          sent[k] == QueryRequest(databaseId, lastSyncTime, CursorBefore(replies, k))
        decreases stop - i
      {
        var result := replies[i];
        sent := sent + [QueryRequest(databaseId, lastSyncTime, cursor)];
        if result.Refused? {
          assert i == stop;
          r := Failure(ClassifyQueryError(result.error));
          return;
        }
        assert Concat(replies[..i + 1]) == Concat(replies[..i]) + result.results by {
          assert replies[..i + 1][..i] == replies[..i];
        }
        allPages := allPages + result.results;
        if !result.hasMore {
          assert i == stop;
          break;
        }
        cursor := result.nextCursor;
        i := i + 1;
      }
      var pageProperties: map<string, Property> := map[];
      if |allPages| > 0 {
        var page := allPages[0];
        if page.properties.DatabaseProperties? {
          pageProperties := page.properties.props;
        }
      }
      r := Success(QueryResult(allPages, pageProperties));
    }
  }

  /** NewNotion: resolve the token, then start the cursor one hundred hours
      before `now`; nil when the secret cannot be read. */
  method NewNotion(tokenRef: string, databaseId: string, interval: int, now: int,
                   opRead: Result<string, string>)
    returns (nt: NotionClient?)
    ensures nt == null <==> Get1PasswordSecret(tokenRef, opRead).Failure?
    ensures nt != null ==>
      && fresh(nt) && nt.databaseId == databaseId && nt.pollInterval == interval
      && nt.token == Get1PasswordSecret(tokenRef, opRead).value
      && nt.lastSyncTime == now - InitialLookback
  {
    var token := Get1PasswordSecret(tokenRef, opRead);
    if token.Failure? {
      return null;
    }
    nt := new NotionClient(databaseId, token.value, interval, now - InitialLookback);
  }
}
