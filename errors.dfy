/** Every error value the sync engine can produce. The three sentinels
    ErrAnkiConnectFailed, ErrNotionAuthFailed and ErrNotionDBNotFound are
    their own constructors; every other constructor stands for one
    message-only error raised at one place in the source. */
module Errors {

  datatype Error =
    // anki.go: the version probe failed in transport (wraps ErrAnkiConnectFailed with %w)
    | AnkiConnectFailed
    // anki.go: the version probe answered with an error field
    | AnkiCheckError
    // notion.go: the sentinels of the database query
    | NotionAuthFailed
    | NotionDBNotFound
    // notion.go: any other query failure, wrapped with %v
    | NotionQueryFailed
    // notion.go: `op read` failed
    | SecretReadFailed
    // anki.go: deck handling
    | NoDeckName
    | DeckListFailed
    | DeckListError
    | DeckCreateFailed
    | DeckCreateError
    // anki.go: model handling
    | ModelListFailed
    | ModelListError
    | NoModelName
    | ModelCreateFailed
    | ModelCreateError
    // anki.go: a `result` that is not a JSON list
    | InvalidResponseFormat
    // anki.go: duplicate check
    | CanAddFailed
    | CanAddError
    | NoIndicators
    // processor_dwds_audio.go: source_field or target_field missing
    | ProcessorConfigMissing
}
