/** The sync engine: the processor registry, one sync cycle (as a reference
    definition and as the method that runs it over the replies of the
    remote systems), the fatal-error test and the exit policy of Start. */
module Engine {
  import opened Wrappers
  import opened Errors
  import opened Notion
  import opened Processors
  import Anki

  // ---------------------------------------------------------------------
  // Processor registry (registerProcessor, init)
  // ---------------------------------------------------------------------

  /** The global registry of processors, keyed by name. */
  class ProcessorRegistry {
    var processors: map<string, NoteProcessor>

    constructor ()
      ensures processors == map[]
    {
      processors := map[];
    }

    /** registerProcessor: `p` is found under its own name from now on; a
        later registration under the same name replaces an earlier one, and
        every other name keeps its processor. */
    method Register(p: NoteProcessor)
      modifies this
      ensures processors == old(processors)[p.Name() := p]
      ensures forall name :: name in old(processors) && name != p.Name() ==>
        name in processors && processors[name] == old(processors)[name]
    {
      processors := processors[p.Name() := p];
    }
  }

  /** The registry as init leaves it: the DWDS audio step alone. */
  method NewRegistry() returns (registry: ProcessorRegistry)
    ensures fresh(registry)
    ensures registry.processors == map[DwdsAudio.Name() := DwdsAudio]
  {
    registry := new ProcessorRegistry();
    registry.Register(DwdsAudio);
  }

  // ---------------------------------------------------------------------
  // The replies of the remote systems during one cycle
  // ---------------------------------------------------------------------

  /** What the remote systems answer during one cycle: the version probe,
      the pages of the database query, the deck and model lists and
      creations, the duplicate check of each candidate note, and the DWDS
      lookup of each word. */
  datatype Remote = Remote(
    version: Anki.Reply,
    query: seq<QueryReply>,
    deckNames: Anki.Reply,
    createDeck: Anki.Reply,
    modelNames: Anki.Reply,
    createModel: Anki.Reply,
    canAdd: map<string, string> -> Anki.Reply,
    dwds: string -> Fetch)

  /** How a cycle ends: it returns nil, returns an error, or calls Process
      on the nil interface of an unregistered processor name, which panics. */
  datatype CycleResult = Completed | Failed(error: Error) | Panicked(processor: string)

  /** isFatalError: errors.Is finds one of the three sentinels. Only the
      connection failure of the version probe wraps its sentinel (with %w);
      the two query sentinels are returned as they are; every other error
      is built from a message alone. */
  predicate IsFatal(e: Error)
  {
    e == AnkiConnectFailed || e == NotionAuthFailed || e == NotionDBNotFound
  }

  // ---------------------------------------------------------------------
  // The processors of one record
  // ---------------------------------------------------------------------

  /** The state of a record while its processors run: its fields, the
      write-backs sent so far and, after a panic, the processor name. */
  datatype Steps = Steps(fields: map<string, string>, updates: seq<PageUpdate>, panicked: Option<string>)

  /** The write-back after a processor: the target field alone, with the
      empty string when the mapping has no such key. */
  function WriteBackOf(page: Page, fields: map<string, string>, target: string,
                       schema: map<string, Property>): PageUpdate
  {
    UpdateFor(page, map[target := if target in fields then fields[target] else ""], schema)
  }

  /** One iteration of the processor loop. A disabled step is skipped; an
      unregistered name panics; otherwise the step runs and its target field
      is written back whether or not it reported an error. */
  function ProcessorStep(registry: map<string, NoteProcessor>, config: ProcessorConfig, s: Steps,
                         page: Page, schema: map<string, Property>, dwds: string -> Fetch): Steps
  {
    if s.panicked.Some? || !config.enabled then s
    else if config.name !in registry then Steps(s.fields, s.updates, Some(config.name))
    else
      var r := Processed(registry[config.name], s.fields, config, dwds);
      Steps(r.fields, s.updates + [WriteBackOf(page, r.fields, config.targetField, schema)], None)
  }

  /** The configured processors run in order over one record. */
  function RunProcessors(registry: map<string, NoteProcessor>, configs: seq<ProcessorConfig>,
                         fields: map<string, string>, page: Page, schema: map<string, Property>,
                         dwds: string -> Fetch): Steps
    decreases |configs|
  {
    if configs == [] then Steps(fields, [], None)
    else
      var prev := RunProcessors(registry, configs[..|configs| - 1], fields, page, schema, dwds);
      ProcessorStep(registry, configs[|configs| - 1], prev, page, schema, dwds)
  }

  /** The target fields of the enabled processors, in order. */
  function EnabledTargets(configs: seq<ProcessorConfig>): seq<string>
    decreases |configs|
  {
    if configs == [] then []
    else
      var last := configs[|configs| - 1];
      EnabledTargets(configs[..|configs| - 1]) + (if last.enabled then [last.targetField] else [])
  }

  // ---------------------------------------------------------------------
  // The record loop
  // ---------------------------------------------------------------------

  /** The duplicate check lets a record through: no error, and the first
      indicator is true. */
  predicate Admits(remote: Remote, fields: map<string, string>)
  {
    var verdict := Anki.CanAddVerdict(remote.canAdd(fields));
    verdict.1.None? && verdict.0
  }

  /** The records admitted by the duplicate check, in page order. */
  function Admitted(remote: Remote, pages: seq<Page>): seq<Page>
    decreases |pages|
  {
    if pages == [] then []
    else
      var last := pages[|pages| - 1];
      Admitted(remote, pages[..|pages| - 1]) + (if Admits(remote, FieldsOf(last)) then [last] else [])
  }

  /** The state of the record loop: the batch to insert, the write-backs
      sent, and the processor name after a panic. */
  datatype Records = Records(batch: seq<map<string, string>>, updates: seq<PageUpdate>,
                             panicked: Option<string>)

  /** One iteration of the record loop: flatten, ask the duplicate check,
      and for an admitted record run the processors and queue the result. */
  function RecordStep(registry: map<string, NoteProcessor>, configs: seq<ProcessorConfig>,
                      remote: Remote, schema: map<string, Property>, acc: Records, page: Page): Records
  {
    if acc.panicked.Some? then acc
    else
      var fields := FieldsOf(page);
      if !Admits(remote, fields) then acc
      else
        var s := RunProcessors(registry, configs, fields, page, schema, remote.dwds);
        Records(if s.panicked.Some? then acc.batch else acc.batch + [s.fields],
                acc.updates + s.updates, s.panicked)
  }

  /** The record loop over `pages`, in order. */
  function RunRecords(registry: map<string, NoteProcessor>, configs: seq<ProcessorConfig>,
                      remote: Remote, schema: map<string, Property>, pages: seq<Page>): Records
    decreases |pages|
  {
    if pages == [] then Records([], [], None)
    else
      var prev := RunRecords(registry, configs, remote, schema, pages[..|pages| - 1]);
      RecordStep(registry, configs, remote, schema, prev, pages[|pages| - 1])
  }

  // ---------------------------------------------------------------------
  // One cycle
  // ---------------------------------------------------------------------

  /** What a cycle leaves behind: how it ended, the addNotes request if one
      was sent, the write-backs sent, and the sync cursor. */
  datatype Outcome = Outcome(result: CycleResult, inserted: Option<Anki.Request>,
                             updates: seq<PageUpdate>, cursor: int)

  /** sync, as a reference definition: the four stages in order, each
      failure returned at once; then the record loop, the bulk insert when
      the batch is non-empty, and the cursor moved to `now`. */
  function Cycle(anki: Anki.Anki, configs: seq<ProcessorConfig>, registry: map<string, NoteProcessor>,
                 remote: Remote, cursor: int, now: int): Outcome
    requires Terminates(remote.query)
  {
    var check := Anki.CheckAnkiConnect(remote.version);
    if check.err.Some? then Outcome(Failed(check.err.value), None, [], cursor)
    else
      var query := AllPages(remote.query);
      if query.Failure? then Outcome(Failed(query.error), None, [], cursor)
      else
        var deck := Anki.DeckExchange(anki, remote.deckNames, remote.createDeck);
        if deck.err.Some? then Outcome(Failed(deck.err.value), None, [], cursor)
        else
          var model := Anki.ModelError(anki, remote.modelNames, remote.createModel);
          if model.Some? then Outcome(Failed(model.value), None, [], cursor)
          else
            var records := RunRecords(registry, configs, remote, query.value.schema, query.value.pages);
            if records.panicked.Some? then
              Outcome(Panicked(records.panicked.value), None, records.updates, cursor)
            else
              var inserted := if |records.batch| > 0 then Some(Anki.AddNotesFor(anki, records.batch)) else None;
              Outcome(Completed, inserted, records.updates, now)
  }

  /** The processor loop of sync for one admitted record: the record's
      mapping is handed to each enabled processor in turn, and its target
      field is written back after each. */
  method RunRecordProcessors(registry: map<string, NoteProcessor>, configs: seq<ProcessorConfig>,
                             properties: map<string, string>, page: Page,
                             pageProperties: map<string, Property>, dwds: string -> Fetch)
    returns (s: Steps)
    ensures s == RunProcessors(registry, configs, properties, page, pageProperties, dwds)
  {
    var note := new NoteData(properties);
    var recordUpdates: seq<PageUpdate> := [];
    for j := 0 to |configs|
      invariant RunProcessors(registry, configs[..j], properties, page, pageProperties, dwds)
        == Steps(note.fields, recordUpdates, None)
    {
      var processConfig := configs[j];
      assert configs[..j + 1][..j] == configs[..j];
      if !processConfig.enabled {
        continue;
      }
      if processConfig.name !in registry {
        ProcessorsPanicPersists(registry, configs, j + 1, properties, page, pageProperties, dwds);
        return Steps(note.fields, recordUpdates, Some(processConfig.name));
      }
      var _ := Process(registry[processConfig.name], note, processConfig, dwds);
      var target := processConfig.targetField;
      var value := if target in note.fields then note.fields[target] else "";
      var update := UpdatePageOfDatabase(page, map[target := value], pageProperties);
      recordUpdates := recordUpdates + [update];
    }
    assert configs[..|configs|] == configs;
    return Steps(note.fields, recordUpdates, None);
  }

  /** The record loop of sync: flatten each page, ask the duplicate check,
      and run the processors over the admitted ones. */
  method RunRecordLoop(anki: Anki.Anki, registry: map<string, NoteProcessor>, configs: seq<ProcessorConfig>,
                       remote: Remote, pageProperties: map<string, Property>, pages: seq<Page>)
    returns (r: Records)
    ensures r == RunRecords(registry, configs, remote, pageProperties, pages)
  {
    var notesToAdd: seq<map<string, string>> := [];
    var updates: seq<PageUpdate> := [];
    for i := 0 to |pages|
      invariant RunRecords(registry, configs, remote, pageProperties, pages[..i]) == Records(notesToAdd, updates, None)
    {
      var page := pages[i];
      assert pages[..i + 1][..i] == pages[..i];
      var properties := ExtractPropertiesFromPage(page);
      var canBeAdded, canAddErr, _ := Anki.CanAddNotes(anki, properties, remote.canAdd(properties));
      if canAddErr.Some? || !canBeAdded {
        continue;
      }
      var s := RunRecordProcessors(registry, configs, properties, page, pageProperties, remote.dwds);
      if s.panicked.Some? {
        RecordsPanicPersists(registry, configs, remote, pageProperties, pages, i + 1);
        return Records(notesToAdd, updates + s.updates, s.panicked);
      }
      notesToAdd := notesToAdd + [s.fields];
      updates := updates + s.updates;
    }
    assert pages[..|pages|] == pages;
    return Records(notesToAdd, updates, None);
  }

  /** sync: one cycle against the replies in `remote`, at time `now`. */
  method Sync(anki: Anki.Anki, nt: NotionClient, configs: seq<ProcessorConfig>,
              registry: ProcessorRegistry, remote: Remote, now: int)
    returns (result: CycleResult, inserted: Option<Anki.Request>, updates: seq<PageUpdate>)
    requires Terminates(remote.query)
    modifies nt
    ensures Outcome(result, inserted, updates, nt.lastSyncTime)
      == Cycle(anki, configs, registry.processors, remote, old(nt.lastSyncTime), now)
  {
    var check := Anki.CheckAnkiConnect(remote.version);
    if check.err.Some? {
      return Failed(check.err.value), None, [];
    }
    var query, _ := nt.QueryAllPages(remote.query);
    if query.Failure? {
      return Failed(query.error), None, [];
    }
    var pages := query.value.pages;
    var pageProperties := query.value.schema;
    var deckErr, _ := Anki.EnsureDeckExists(anki, remote.deckNames, remote.createDeck);
    if deckErr.Some? {
      return Failed(deckErr.value), None, [];
    }
    var modelErr, _ := Anki.EnsureModelExists(anki, pageProperties, remote.modelNames, remote.createModel);
    if modelErr.Some? {
      return Failed(modelErr.value), None, [];
    }
    var records := RunRecordLoop(anki, registry.processors, configs, remote, pageProperties, pages);
    if records.panicked.Some? {
      return Panicked(records.panicked.value), None, records.updates;
    }
    inserted := None;
    if |records.batch| > 0 {
      var _, request := Anki.AddNotesToDeck(anki, records.batch);
      inserted := Some(request);
    }
    nt.lastSyncTime := now;
    result, updates := Completed, records.updates;
  }

  // ---------------------------------------------------------------------
  // Properties of the processor loop
  // ---------------------------------------------------------------------

  /** After a panic the rest of the processor loop does nothing. */
  lemma {:induction false} ProcessorsPanicPersists(registry: map<string, NoteProcessor>, configs: seq<ProcessorConfig>,
                                                   j: nat, fields: map<string, string>, page: Page,
                                                   schema: map<string, Property>, dwds: string -> Fetch)
    requires j <= |configs|
    requires RunProcessors(registry, configs[..j], fields, page, schema, dwds).panicked.Some?
    ensures RunProcessors(registry, configs, fields, page, schema, dwds)
      == RunProcessors(registry, configs[..j], fields, page, schema, dwds)
    decreases |configs|
  {
    if j < |configs| {
      var front := configs[..|configs| - 1];
      assert front[..j] == configs[..j];
      ProcessorsPanicPersists(registry, front, j, fields, page, schema, dwds);
    } else {
      assert configs[..j] == configs;
    }
  }

  /** A record panics exactly when an enabled step names no registered
      processor. */
  lemma {:induction false} PanicsIffUnregistered(registry: map<string, NoteProcessor>, configs: seq<ProcessorConfig>,
                                                 fields: map<string, string>, page: Page,
                                                 schema: map<string, Property>, dwds: string -> Fetch)
    ensures RunProcessors(registry, configs, fields, page, schema, dwds).panicked.Some?
      <==> exists i :: 0 <= i < |configs| && configs[i].enabled && configs[i].name !in registry
    decreases |configs|
  {
    if configs != [] {
      var front := configs[..|configs| - 1];
      var last := configs[|configs| - 1];
      PanicsIffUnregistered(registry, front, fields, page, schema, dwds);
      var prev := RunProcessors(registry, front, fields, page, schema, dwds);
      if prev.panicked.Some? {
        var i :| 0 <= i < |front| && front[i].enabled && front[i].name !in registry;
        assert configs[i] == front[i];
      } else if last.enabled && last.name !in registry {
        assert configs[|configs| - 1] == last;
      } else {
        forall i | 0 <= i < |configs| && configs[i].enabled
          ensures configs[i].name in registry
        {
          if i < |front| {
            assert configs[i] == front[i];
          }
        }
      }
    }
  }

  /** Without a panic, each enabled processor leads to exactly one
      write-back, in order, of the page, holding its target field alone. */
  lemma {:induction false} OneWriteBackPerEnabledProcessor(registry: map<string, NoteProcessor>,
                                                           configs: seq<ProcessorConfig>,
                                                           fields: map<string, string>, page: Page,
                                                           schema: map<string, Property>, dwds: string -> Fetch)
    ensures var s := RunProcessors(registry, configs, fields, page, schema, dwds);
      s.panicked.None? ==>
        && |s.updates| == |EnabledTargets(configs)|
        && forall k :: 0 <= k < |s.updates| ==>
             s.updates[k].pageId == page.id && s.updates[k].params.Keys == {EnabledTargets(configs)[k]}
    decreases |configs|
  {
    if configs != [] {
      var front := configs[..|configs| - 1];
      OneWriteBackPerEnabledProcessor(registry, front, fields, page, schema, dwds);
    }
  }

  /** The processors of a record change no field that no enabled processor
      targets. */
  lemma {:induction false} ProcessorsKeepOtherFields(registry: map<string, NoteProcessor>,
                                                     configs: seq<ProcessorConfig>,
                                                     fields: map<string, string>, page: Page,
                                                     schema: map<string, Property>, dwds: string -> Fetch,
                                                     key: string)
    requires key in fields
    requires forall i :: 0 <= i < |configs| && configs[i].enabled ==> configs[i].targetField != key
    ensures var s := RunProcessors(registry, configs, fields, page, schema, dwds);
      key in s.fields && s.fields[key] == fields[key]
    decreases |configs|
  {
    if configs != [] {
      var front := configs[..|configs| - 1];
      var last := configs[|configs| - 1];
      assert forall i :: 0 <= i < |front| ==> front[i] == configs[i];
      ProcessorsKeepOtherFields(registry, front, fields, page, schema, dwds, key);
      var prev := RunProcessors(registry, front, fields, page, schema, dwds);
      if prev.panicked.None? && last.enabled && last.name in registry {
        ProcessedWritesOnlyTarget(registry[last.name], prev.fields, last, dwds);
      }
    }
  }

  // ---------------------------------------------------------------------
  // Properties of the record loop
  // ---------------------------------------------------------------------

  /** After a panic the rest of the record loop does nothing. */
  lemma {:induction false} RecordsPanicPersists(registry: map<string, NoteProcessor>, configs: seq<ProcessorConfig>,
                                                remote: Remote, schema: map<string, Property>,
                                                pages: seq<Page>, i: nat)
    requires i <= |pages|
    requires RunRecords(registry, configs, remote, schema, pages[..i]).panicked.Some?
    ensures RunRecords(registry, configs, remote, schema, pages)
      == RunRecords(registry, configs, remote, schema, pages[..i])
    decreases |pages|
  {
    if i < |pages| {
      var front := pages[..|pages| - 1];
      assert front[..i] == pages[..i];
      RecordsPanicPersists(registry, configs, remote, schema, front, i);
    } else {
      assert pages[..i] == pages;
    }
  }

  /** Without a panic, the batch holds every admitted record exactly once,
      in page order, as its processors left it; a record the duplicate
      check rejects or errors on is not in it. */
  lemma {:induction false} BatchHoldsAdmittedRecords(registry: map<string, NoteProcessor>,
                                                     configs: seq<ProcessorConfig>, remote: Remote,
                                                     schema: map<string, Property>, pages: seq<Page>)
    ensures var r := RunRecords(registry, configs, remote, schema, pages);
      var admitted := Admitted(remote, pages);
      r.panicked.None? ==>
        && |r.batch| == |admitted|
        && forall k :: 0 <= k < |r.batch| ==>
             r.batch[k] == RunProcessors(registry, configs, FieldsOf(admitted[k]), admitted[k], schema, remote.dwds).fields
    decreases |pages|
  {
    if pages != [] {
      var front := pages[..|pages| - 1];
      BatchHoldsAdmittedRecords(registry, configs, remote, schema, front);
    }
  }

  /** A record the duplicate check does not admit changes nothing: no
      processor runs, nothing is written back and the batch is unchanged. */
  lemma {:induction false} RejectedRecordChangesNothing(registry: map<string, NoteProcessor>,
                                                        configs: seq<ProcessorConfig>, remote: Remote,
                                                        schema: map<string, Property>, pages: seq<Page>, page: Page)
    requires !Admits(remote, FieldsOf(page))
    ensures RunRecords(registry, configs, remote, schema, pages + [page])
      == RunRecords(registry, configs, remote, schema, pages)
  {
    assert (pages + [page])[..|pages|] == pages;
  }

  /** When every enabled step names a registered processor, the record
      loop does not panic. */
  lemma {:induction false} NoPanicWhenRegistered(registry: map<string, NoteProcessor>,
                                                 configs: seq<ProcessorConfig>, remote: Remote,
                                                 schema: map<string, Property>, pages: seq<Page>)
    requires forall i :: 0 <= i < |configs| && configs[i].enabled ==> configs[i].name in registry
    ensures RunRecords(registry, configs, remote, schema, pages).panicked.None?
    decreases |pages|
  {
    if pages != [] {
      var last := pages[|pages| - 1];
      NoPanicWhenRegistered(registry, configs, remote, schema, pages[..|pages| - 1]);
      PanicsIffUnregistered(registry, configs, FieldsOf(last), last, schema, remote.dwds);
    }
  }

  // ---------------------------------------------------------------------
  // Properties of a cycle
  // ---------------------------------------------------------------------

  /** The cursor moves to `now` exactly when the cycle completes; a failed
      cycle sends neither a write-back nor an insert, and a panicked one no
      insert. */
  lemma CycleCursor(anki: Anki.Anki, configs: seq<ProcessorConfig>, registry: map<string, NoteProcessor>,
                    remote: Remote, cursor: int, now: int)
    requires Terminates(remote.query)
    ensures var o := Cycle(anki, configs, registry, remote, cursor, now);
      && o.cursor == (if o.result.Completed? then now else cursor)
      && (!o.result.Completed? ==> o.inserted.None?)
      && (o.result.Failed? ==> o.updates == [])
  {
  }

  /** A completed cycle inserts exactly when some record was admitted, and
      then one note per admitted record. */
  lemma {:induction false} CycleInsertsAdmitted(anki: Anki.Anki, configs: seq<ProcessorConfig>,
                                                registry: map<string, NoteProcessor>,
                                                remote: Remote, cursor: int, now: int)
    requires Terminates(remote.query)
    ensures var o := Cycle(anki, configs, registry, remote, cursor, now);
      o.result.Completed? ==>
        var admitted := Admitted(remote, AllPages(remote.query).value.pages);
        && (o.inserted.Some? <==> |admitted| > 0)
        && (o.inserted.Some? ==> o.inserted.value.AddNotesRequest? && |o.inserted.value.notes| == |admitted|)
  {
    var query := AllPages(remote.query);
    if query.Success? {
      BatchHoldsAdmittedRecords(registry, configs, remote, query.value.schema, query.value.pages);
    }
  }

  /** Deck and model errors are never fatal. */
  lemma GatewayErrorsAreNotFatal(anki: Anki.Anki, listReply: Anki.Reply, createReply: Anki.Reply)
    ensures Anki.DeckExchange(anki, listReply, createReply).err.Some? ==>
      !IsFatal(Anki.DeckExchange(anki, listReply, createReply).err.value)
    ensures Anki.ModelError(anki, listReply, createReply).Some? ==>
      !IsFatal(Anki.ModelError(anki, listReply, createReply).value)
  {
  }

  /** A cycle fails fatally exactly when AnkiConnect cannot be reached, or
      the version probe succeeds and the database query is refused with
      status 401 or 404. */
  lemma {:induction false} CycleFatalIff(anki: Anki.Anki, configs: seq<ProcessorConfig>,
                                         registry: map<string, NoteProcessor>,
                                         remote: Remote, cursor: int, now: int)
    requires Terminates(remote.query)
    ensures var o := Cycle(anki, configs, registry, remote, cursor, now);
      var stop := remote.query[StopIndex(remote.query)];
      (o.result.Failed? && IsFatal(o.result.error)) <==>
        (|| remote.version.Unreachable?
         || (&& remote.version.error == Anki.JNull
             && stop.Refused?
             && (stop.error == ApiError(401) || stop.error == ApiError(404))))
  {
    GatewayErrorsAreNotFatal(anki, remote.deckNames, remote.createDeck);
    GatewayErrorsAreNotFatal(anki, remote.modelNames, remote.createModel);
  }

  // ---------------------------------------------------------------------
  // Start
  // ---------------------------------------------------------------------

  /** The state of the process after a number of cycles: still running, or
      exited with a status (1 for log.Fatalf, 2 for a panic). */
  datatype RunEnd = Running(cycles: nat) | Exited(code: int, cycles: nat)

  /** The exit policy of Start over the results of its cycles, the first
      being the initial one: a fatal error ends the process only in the
      initial cycle, a panic in any cycle; every other failure is logged. */
  function StartOutcome(results: seq<CycleResult>): (r: RunEnd)
    ensures r.Running? ==> r.cycles == |results|
    ensures r.Exited? ==> 1 <= r.cycles <= |results|
    ensures r.Exited? ==>
      || (r.code == 2 && results[r.cycles - 1].Panicked?)
      || (r.code == 1 && r.cycles == 1 && results[0].Failed? && IsFatal(results[0].error))
    decreases |results|
  {
    if results == [] then Running(0)
    else
      var prev := StartOutcome(results[..|results| - 1]);
      var last := results[|results| - 1];
      if prev.Exited? then prev
      else if last.Panicked? then Exited(2, |results|)
      else if |results| == 1 && last.Failed? && IsFatal(last.error) then Exited(1, 1)
      else Running(|results|)
  }

  /** Start: the initial cycle, then one cycle per tick, each against its
      own replies and time, until the process exits. */
  method Start(anki: Anki.Anki, nt: NotionClient, configs: seq<ProcessorConfig>,
               registry: ProcessorRegistry, remotes: seq<Remote>, clock: seq<int>)
    returns (end: RunEnd, results: seq<CycleResult>)
    requires |clock| == |remotes|
    requires forall k :: 0 <= k < |remotes| ==> Terminates(remotes[k].query)
    modifies nt
    ensures end == StartOutcome(results)
    ensures |results| <= |remotes|
    ensures end.Running? ==> |results| == |remotes|
    ensures end.Exited? ==> end.cycles == |results|
  {
    results := [];
    end := Running(0);
    var i := 0;
    while i < |remotes|
      invariant 0 <= i <= |remotes| && |results| == i
      invariant end == StartOutcome(results) && end == Running(i)
    {
      var r, _, _ := Sync(anki, nt, configs, registry, remotes[i], clock[i]);
      results := results + [r];
      assert results[..|results| - 1] == results[..i];
      if r.Panicked? {
        return Exited(2, i + 1), results;
      }
      if i == 0 && r.Failed? && IsFatal(r.error) {
        return Exited(1, 1), results;
      }
      end := Running(i + 1);
      i := i + 1;
    }
  }

  /** Exiting with status 1 happens only after the initial cycle, and only
      on a fatal error. */
  lemma {:induction false} OnlyInitialCycleExitsOnError(results: seq<CycleResult>)
    ensures var end := StartOutcome(results);
      end.Exited? && end.code == 1 ==>
        end.cycles == 1 && results[0].Failed? && IsFatal(results[0].error)
    decreases |results|
  {
    if results != [] {
      var front := results[..|results| - 1];
      OnlyInitialCycleExitsOnError(front);
      if |front| > 0 {
        assert front[0] == results[0];
      }
    }
  }

  /** Without a panic and without a fatal error in the initial cycle, the
      process keeps running whatever the later cycles return. */
  lemma {:induction false} LaterFailuresAreOnlyLogged(results: seq<CycleResult>)
    requires forall k :: 0 <= k < |results| ==> !results[k].Panicked?
    requires |results| > 0 ==> !(results[0].Failed? && IsFatal(results[0].error))
    ensures StartOutcome(results) == Running(|results|)
    decreases |results|
  {
    if results != [] {
      var front := results[..|results| - 1];
      assert forall k :: 0 <= k < |front| ==> front[k] == results[k];
      LaterFailuresAreOnlyLogged(front);
    }
  }
}
