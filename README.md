# notion2anki — a Dafny model of the sync engine

notion2anki polls a Notion database and turns each recently edited page into an Anki note through AnkiConnect.

One sync cycle runs these steps in order:

1. It probes AnkiConnect.
2. It queries the pages edited after the sync cursor, following pagination.
3. It makes sure the configured deck and note model exist.
4. For each page, it flattens the typed properties into a string field mapping. It then asks AnkiConnect whether that note can be added.
5. For every admitted page it runs the enabled processors in order. Each processor may rewrite one target field and is followed by a write-back of that field to Notion.
6. It inserts the admitted notes in one batch.
7. It moves the cursor to "now".

The one built-in processor, `dwds_audio`, looks a word up on dwds.de and stores the URL of its pronunciation audio.

Every remote call is replaced by the reply it gets. The replies are:

- the AnkiConnect `{result, error}` objects, or a transport failure;
- the sequence of Notion query replies;
- a function giving the duplicate-check reply for each field mapping;
- a function giving the DWDS page for each word.

The model then proves what the engine does with those replies.

Modules, one per source file:

- `Text` (`text.dfy`): the Go `strings` functions the engine relies on, written out over `seq<char>`. It also proves that splitting on `", "` undoes joining on `", "`.
- `Errors` (`errors.dfy`): one constructor per error the core can return. The three sentinel errors are their own constructors.
- `Notion` (`notion.dfy`): property flattening, the typed write-back, pagination, error classification, the token lookup and the `NotionClient` class. The class holds the sync cursor `lastSyncTime`.
- `Processors` (`processors.dfy`): contains:
  - the processor configuration;
  - the processor kinds, as a datatype;
  - the URL cleaning and audio tests of the DWDS step;
  - the `<audio>` scan over an abstract document;
  - `Process`, which updates a `NoteData` object in place.
- `Anki` (`anki.dfy`): the version probe, deck and model handling, the duplicate check and the bulk insert.
- `Engine` (`engine.dfy`): contains:
  - the processor registry, as a class;
  - the reference definition `Cycle` of one sync cycle;
  - the methods `Sync`, `RunRecordLoop` and `RunRecordProcessors`, which run a cycle and are proved equal to `Cycle`;
  - the fatal-error test;
  - the exit policy of `Start`.

Where the design description and the code differ, the model follows the code:

- The write-back after a processor happens for every enabled processor, even when the processor found nothing or returned an error. When the mapping has no target key, the value written is the empty string (main.go:111-115).
- The AnkiConnect version probe comes before the Notion query. So a cycle whose Notion token is rejected still sends the probe first (main.go:67-74).
- Only a transport failure of the version probe is fatal. A version reply that carries an error field is an ordinary error, because it does not wrap the sentinel (anki.go:91-97).
- An enabled processor whose name is not registered is logged, and then `Process` is called on a nil interface. The model treats this as a panic that ends the cycle (`CycleResult.Panicked`); it does not skip the processor (main.go:104-108).

## Model

| member | source | states |
|---|---|---|
| Notion.ExtractPropertiesFromPage | notion.go:131-188 | nil or non-database properties give the empty map; every key is a property name of the page whose type is one of the five handled; a property has a key exactly when its flattening rule yields text (an empty first title text yields no key); each value is the flattened text |
| Notion.CollectNonEmpty | notion.go:161-166 | the collected names or plain texts are the non-empty items of the list, in original order |
| Notion.UpdatePageOfDatabase | notion.go:190-216 | the update targets the page, has exactly the keys of `props`, and types each value after the schema property of the same name (a multi-select value is split on ", "; an unknown name gives the empty property) |
| Notion.WriteBackRoundTrip | notion.go:194-214 | writing back a flattened value and flattening the stored property again gives the same value, provided no multi-select option contains ", " |
| Notion.MultiSelectWriteBackRecoversOptions | notion.go:205-209 | when the multi-select has at least one non-empty option and no option contains ", ", the write-back of its flattened value sends exactly the non-empty options, in order |
| Text.SplitJoin | notion.go:206 | splitting on ", " a list joined with ", " gives the list back when no item contains ", " |
| Notion.ClassifyQueryError | notion.go:86-97 | status 401 gives the authentication sentinel, 404 the not-found sentinel, and every other failure the generic query error |
| Notion.NotionClient.QueryAllPages | notion.go:102-128 | the result is the pages of every reply up to the first that has no more pages, concatenated in fetch order, with the first page's database properties as schema; or the classified error of the first refused reply and no pages; one request per reply up to that one, each filtered by the cursor and starting at the previous reply's next cursor |
| Notion.AllPagesShape | notion.go:106-128 | the query fails exactly when a refused reply comes before any reply without more pages, and a successful result carries the properties of its first page |
| Notion.Get1PasswordSecret | notion.go:33-46 | a reference without the op:// prefix is the token itself; with it, a failed `op read` is an error |
| Notion.NewNotion | notion.go:48-65 | no client when the token cannot be read; otherwise a client with the database, token and interval, whose cursor starts one hundred hours before now |
| Processors.NoteProcessor.Name | processors/processor_dwds_audio.go:30-32 | every processor has a non-empty registry name |
| Processors.Process | processors/processor_dwds_audio.go:34-55 | the new field mapping and the error are those of `Processed` on the old mapping |
| Processors.ProcessedErrors | processors/processor_dwds_audio.go:38-50 | the step fails exactly when the source or target field name is empty, and then changes nothing; an absent or empty source field changes nothing; a failed lookup returns no error and changes nothing |
| Processors.ProcessedWritesOnlyTarget | processors/processor_dwds_audio.go:46-53 | every key other than the target keeps its value and no other key appears; a changed target holds a URL that starts with "http" and passes isAudioURL; a lookup that finds audio writes exactly its URL to the target, and one that finds none changes nothing |
| Processors.GetAudioURL | processors/processor_dwds_audio.go:82-103 | a transport failure or a status other than 200 is an error; otherwise the result is that of extractAudioURL on the page |
| Processors.AudioLookup | processors/processor_dwds_audio.go:86-102 | transport failures and non-200 statuses are errors, and a found URL starts with "http" and passes isAudioURL |
| Processors.ExtractAudioURL | processors/processor_dwds_audio.go:105-120 | an unparseable page is an error; otherwise the result reports found exactly when the scan of the document finds audio |
| Processors.FindAudioElements | processors/processor_dwds_audio.go:122-150 | the result is `AudioOf` of the document: the audio information of the last src the scan assigns |
| Processors.LastSrcSeen | processors/processor_dwds_audio.go:123-136 | the scan ends holding the last non-empty src assigned in document order, each `<audio>` element giving its own src or else those of its `<source>` children; "" when none is assigned |
| Processors.LastSourceSrc | processors/processor_dwds_audio.go:130-135 | the scan of the `<source>` children ends with the last non-empty src among them, or with the src held before when there is none |
| Processors.LastSrcIsLastCandidate | processors/processor_dwds_audio.go:123-136 | the src held after the scan is the last candidate, which is never empty, and "" exactly when there is no candidate |
| Processors.AudioOfSrcMeaning | processors/processor_dwds_audio.go:138-149 | no src gives the empty not-found value; a src is found exactly when it cleans to a non-empty URL, and the result is then that URL, which starts with "http" and passes isAudioURL, with its detected format |
| Processors.AudioOfMeaning | processors/processor_dwds_audio.go:122-150 | audio is found exactly when the last src assigned cleans to a non-empty URL; the result is then that URL, which starts with "http" and passes isAudioURL, with its detected format, and otherwise the empty not-found value |
| Processors.CleanAudioURL | processors/processor_dwds_audio.go:152-177 | the result is "" or a URL that starts with "http" and for which isAudioURL holds |
| Text.TrimLeftMeaning | processors/processor_dwds_audio.go:157-158 | trimming the left end removes a run of cut characters and leaves a suffix that is empty or starts with a kept character |
| Text.TrimRightMeaning | processors/processor_dwds_audio.go:157-158 | trimming the right end removes a run of cut characters and leaves a prefix that is empty or ends with a kept character |
| Processors.Absolutize | processors/processor_dwds_audio.go:160-170 | every URL that is kept starts with "http" |
| Processors.ProtocolRelativeGetsBaseURL | processors/processor_dwds_audio.go:161-164 | a URL starting with "//" gets the base URL in front, because the "//" branch is never reached |
| Processors.RejectedReferences | processors/processor_dwds_audio.go:165-169 | an empty URL, or one that starts neither with "http" nor with "/" and contains "javascript:", is cleaned to "" |
| Processors.RelativeReferenceResolved | processors/processor_dwds_audio.go:165-166 | any other relative URL is resolved as base + "/" + url, kept if it passes isAudioURL |
| Processors.ContainsAny | processors/processor_dwds_audio.go:187-198 | the keyword scan is true exactly when the string contains one of the keywords |
| Processors.IsAudioURL | processors/processor_dwds_audio.go:179-201 | isAudioURL as written: the empty URL is refused, then the extension scan, then the path-keyword scan, on the lower-cased URL; its meaning is stated by `IsAudioURLMeaning` |
| Processors.IsAudioURLMeaning | processors/processor_dwds_audio.go:179-201 | isAudioURL holds exactly for a non-empty URL whose lower-cased form contains one of the five extensions or the five path keywords |
| Processors.DetectAudioFormat | processors/processor_dwds_audio.go:203-219 | detectAudioFormat as written: the if-chain of `FormatOfLower` on the lower-cased URL; its meaning is stated by `DetectAudioFormatFirstMatch` |
| Processors.DetectAudioFormatFirstMatch | processors/processor_dwds_audio.go:203-219 | the format is that of the first of mp3, ogg, wav, m4a, aac contained in the lower-cased URL, and "unknown" exactly when none is |
| Anki.CheckAnkiConnect | anki.go:82-100 | the probe sends one version request; the connection sentinel arises exactly on a transport failure; success exactly when the reply has no error |
| Anki.CreateDeck | anki.go:102-127 | an empty deck name is an error and sends nothing; otherwise one createDeck request, succeeding exactly when the reply has no error |
| Anki.EnsureDeckExists | anki.go:129-165 | an empty deck name is an error before any request; a deck in the returned list is not created; a deck missing from the list leads to exactly one createDeck; a failed or malformed list is an error |
| Anki.CreateModel | anki.go:205-237 | an empty model name is an error and sends nothing; otherwise one createModel request with the given fields and the single card template |
| Anki.EnsureModelExists | anki.go:167-203 | a failed, erroneous or malformed model list is an error; a model in the list is not created; otherwise createModel is asked for with every page property name exactly once as a field |
| Anki.AddNotesToDeck | anki.go:239-270 | one note per mapping, in order, with the configured deck and model, the fields unchanged and the tag "notion"; never an error |
| Anki.CanAddNotes | anki.go:272-315 | a transport failure, an error field, a non-list result or an empty list is an error; otherwise the answer is whether the first element is the JSON value true |
| Engine.ProcessorRegistry.Register | main.go:26-28 | the processor is registered under its name, replacing an earlier one of that name; every other name keeps its processor |
| Engine.NewRegistry | main.go:161-163 | the registry starts with the DWDS audio processor alone |
| Engine.Sync | main.go:63-132 | a cycle does what `Cycle` defines, including the new cursor |
| Engine.Cycle | main.go:63-131 | the reference definition of one sync cycle: probe, query, deck, model, record loop, conditional insert, cursor; its properties are stated by `CycleCursor`, `CycleInsertsAdmitted` and `CycleFatalIff` |
| Engine.RunRecordLoop | main.go:84-118 | the record loop yields the batch, write-backs and panic state of `RunRecords` |
| Engine.RunRecordProcessors | main.go:100-116 | the processor loop of one record yields the fields, write-backs and panic state of `RunProcessors` |
| Engine.PanicsIffUnregistered | main.go:104-108 | the processors of a record panic exactly when an enabled step names an unregistered processor |
| Engine.OneWriteBackPerEnabledProcessor | main.go:100-116 | without a panic there is exactly one write-back per enabled processor, in order; each is for the page and holds only that processor's target field |
| Engine.ProcessorsKeepOtherFields | main.go:100-110 | a field that no enabled processor targets keeps its value |
| Engine.BatchHoldsAdmittedRecords | main.go:86-118 | without a panic the batch holds every record the duplicate check admits, exactly once, in page order, as its processors left it |
| Engine.RejectedRecordChangesNothing | main.go:89-99 | a record rejected by the duplicate check, or on which the check errors, runs no processor, is not written back and is not in the batch |
| Engine.NoPanicWhenRegistered | main.go:104-108 | when every enabled step names a registered processor, the record loop does not panic |
| Engine.CycleCursor | main.go:63-131 | the cursor moves to now exactly when the cycle completes; a failed cycle sends no write-back and no insert |
| Engine.CycleInsertsAdmitted | main.go:120-127 | a completed cycle sends addNotes exactly when some record was admitted, with one note per admitted record |
| Engine.GatewayErrorsAreNotFatal | main.go:133-138 | no deck or model error is fatal |
| Engine.IsFatal | main.go:133-138 | isFatalError: the connection sentinel and the two Notion sentinels, and no other error; `GatewayErrorsAreNotFatal` and `CycleFatalIff` state which cycles produce them |
| Engine.CycleFatalIff | main.go:133-138 | a cycle fails fatally exactly when AnkiConnect is unreachable, or the probe succeeds and the query is refused with status 401 or 404 |
| Engine.Start | main.go:140-158 | the process state after the cycles run is the exit policy applied to their results |
| Engine.StartOutcome | main.go:144-158 | a running process has run every cycle; an exit happens after at least one cycle, with status 2 on a cycle that panicked, or status 1 after the initial cycle alone when its error is fatal |
| Engine.OnlyInitialCycleExitsOnError | main.go:144-149 | exiting on an error happens only after the initial cycle, and only when that cycle's error is fatal |
| Engine.LaterFailuresAreOnlyLogged | main.go:154-158 | with no panic and no fatal error in the initial cycle, the process keeps running whatever later cycles return |

## Left out

- HTTP and JSON transport are not modelled (the AnkiConnect request helper, the resty client, the Notion SDK calls). Each call is replaced by its decoded reply or a transport failure. The version number 6 and the request headers are not represented.
- The Notion SDK types are reduced to the fields the engine reads. A rich-text element is its plain text; a select option is its name. Properties of other types stand as `OtherProp`. The reply of `UpdatePage` is not modelled, since `sync` only logs it; the model records the update that is sent.
- The `op read` subprocess is an input: its output, or its failure.
- The HTML parser is not modelled. A document is a sequence of `<audio>` elements, each with an optional `src` and the optional `src` attributes of its `<source>` children.
- Processors.GetAudioURL: the lower-casing and query-escaping of the word inside the lookup URL is part of the supplied lookup function, which is given the word itself.
- Text.Lower: `strings.ToLower` is modelled for ASCII letters only; other code points are left unchanged.
- ValidateAudioURL is not modelled: the sync engine never calls it.
- Configuration loading with viper, and the invalid poll interval check, are not modelled.
- The `Config` option map of a processor is modelled as `map<string, string>`; the built-in processor reads none of its options.
- Time is an input: the `now` of each cycle and of `NewNotion`. Times are whole seconds. The ticker of `Start` is modelled as a finite sequence of cycles, each with its own replies and time.
- Notion.NotionClient.QueryAllPages: the replies must reach a last page or an error (`Terminates`). A server that pages forever, and the nil `NextCursor` dereference when `HasMore` is set without a cursor, are not modelled.
- Anki.EnsureModelExists: the order of the model's fields follows Go's map iteration order, which is unspecified. The contract states that every property name occurs exactly once, not which order is used.
- Engine.Start: the contract ties the exit policy to the results of the cycles it runs. It does not restate each result as the `Cycle` of the cursor left by the previous cycle.
- Engine.OneWriteBackPerEnabledProcessor: it states the page and the single key of each write-back. The value written is given by `WriteBackOf` inside `Cycle`, which `Sync` is proved to follow.
- Logging and the `fmt.Println` of the configuration in `Process` are not modelled.
- Concurrency is not modelled: there is none in the core.
