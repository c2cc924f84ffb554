/** The transform steps: their configuration, the processor kinds, and the
    one built-in step, which looks a word up on dwds.de and writes the URL
    of its pronunciation audio into the target field. */
module Processors {
  import opened Wrappers
  import opened Text
  import opened Errors

  /** One configured pipeline step. The free-form options are kept as
      strings; the built-in step reads none of them. */
  datatype ProcessorConfig = ProcessorConfig(
    name: string,
    enabled: bool,
    targetField: string,
    sourceField: string,
    options: map<string, string>)

  /** The processor implementations, selected by name. */
  datatype NoteProcessor = DwdsAudio
  {
    function Name(): (name: string)
      ensures name != ""
    {
      match this
      case DwdsAudio => "dwds_audio"
    }
  }

  /** The field mapping a processor mutates in place. */
  class NoteData {
    var fields: map<string, string>

    constructor (fields: map<string, string>)
      ensures this.fields == fields
    {
      this.fields := fields;
    }
  }

  // ---------------------------------------------------------------------
  // The remote page, abstracted
  // ---------------------------------------------------------------------

  /** An <audio> element: its own src attribute, if present, and the src
      attributes of its <source> children, in document order. */
  datatype AudioElement = AudioElement(src: Option<string>, sources: seq<Option<string>>)

  /** The body of the looked-up page: HTML that could not be parsed, or
      the <audio> elements of the parsed document in document order. */
  datatype Html = Unparseable | Document(audios: seq<AudioElement>)

  /** What the GET of the word's page gives: a transport failure, or a status
      and a body. */
  datatype Fetch = NetworkError | HttpResponse(status: int, body: Html)

  datatype AudioInfo = AudioInfo(url: string, format: string, found: bool, errorMsg: string)

  const BaseURL := "https://www.dwds.de"
  const AudioExtensions := [".mp3", ".ogg", ".wav", ".m4a", ".aac"]
  const AudioPaths := ["audio", "sound", "pronunciation", "media", "mp3"]
  /** The characters cleanAudioURL trims: the two quote marks. */
  predicate IsQuote(c: char)
  {
    c == '"' || c == '\''
  }

  const UnknownFormat := "unknown"

  // ---------------------------------------------------------------------
  // String helpers of the step: isAudioURL, detectAudioFormat, cleanAudioURL
  // ---------------------------------------------------------------------

  /** The early-return scan over a keyword list. */
  function ContainsAny(s: string, keys: seq<string>): (r: bool)
    ensures r <==> exists i :: 0 <= i < |keys| && Contains(s, keys[i])
    decreases |keys|
  {
    if keys == [] then false
    else if Contains(s, keys[0]) then true
    else
      var rest := ContainsAny(s, keys[1..]);
      assert forall i :: 1 <= i < |keys| ==> keys[i] == keys[1..][i - 1];
      rest
  }

  /** isAudioURL: the ordered scans over the extensions, then the path
      keywords, of the lower-cased URL. */
  predicate IsAudioURL(url: string)
  {
    if url == "" then false
    else
      var lowerURL := Lower(url);
      if ContainsAny(lowerURL, AudioExtensions) then true
      else ContainsAny(lowerURL, AudioPaths)
  }

  /** The URLs isAudioURL accepts: exactly the non-empty ones whose
      lower-cased form contains one of the ten keywords. */
  lemma IsAudioURLMeaning(url: string)
    ensures IsAudioURL(url) <==>
      (url != "" && exists k :: k in AudioExtensions + AudioPaths && Contains(Lower(url), k))
  {
    KeywordScans(Lower(url));
  }

  /** The two ordered scans together find exactly the ten keywords. */
  lemma KeywordScans(l: string)
    ensures ContainsAny(l, AudioExtensions) || ContainsAny(l, AudioPaths) <==>
      exists k :: k in AudioExtensions + AudioPaths && Contains(l, k)
  {
    var all := AudioExtensions + AudioPaths;
    if ContainsAny(l, AudioExtensions) {
      var i :| 0 <= i < |AudioExtensions| && Contains(l, AudioExtensions[i]);
      assert all[i] in all;
    } else if ContainsAny(l, AudioPaths) {
      var i :| 0 <= i < |AudioPaths| && Contains(l, AudioPaths[i]);
      assert all[|AudioExtensions| + i] in all;
    } else {
      forall k | k in all ensures !Contains(l, k) {
        var i :| 0 <= i < |all| && all[i] == k;
        if i < |AudioExtensions| { assert AudioExtensions[i] == k; }
        else { assert AudioPaths[i - |AudioExtensions|] == k; }
      }
    }
  }

  /** detectAudioFormat: the chain of tests mp3, ogg, wav, m4a, aac on the
      lower-cased URL. */
  function DetectAudioFormat(url: string): (format: string)
  {
    FormatOfLower(Lower(url))
  }

  function FormatOfLower(lowerURL: string): string
  {
    if Contains(lowerURL, ".mp3") then "mp3"
    else if Contains(lowerURL, ".ogg") then "ogg"
    else if Contains(lowerURL, ".wav") then "wav"
    else if Contains(lowerURL, ".m4a") then "m4a"
    else if Contains(lowerURL, ".aac") then "aac"
    else UnknownFormat
  }

  /** The detected format is that of the first extension in the list that
      the lower-cased URL contains, and "unknown" when it contains none. */
  lemma DetectAudioFormatFirstMatch(url: string)
    ensures DetectAudioFormat(url) == UnknownFormat <==>
      forall i :: 0 <= i < |AudioExtensions| ==> !Contains(Lower(url), AudioExtensions[i])
    ensures DetectAudioFormat(url) != UnknownFormat ==>
      exists i :: 0 <= i < |AudioExtensions| && DetectAudioFormat(url) == AudioExtensions[i][1..]
        && Contains(Lower(url), AudioExtensions[i])
        && forall j :: 0 <= j < i ==> !Contains(Lower(url), AudioExtensions[j])
  {
    FormatFirstMatch(Lower(url));
  }

  lemma FormatFirstMatch(l: string)
    ensures FormatOfLower(l) == UnknownFormat <==>
      forall i :: 0 <= i < |AudioExtensions| ==> !Contains(l, AudioExtensions[i])
    ensures FormatOfLower(l) != UnknownFormat ==>
      exists i :: 0 <= i < |AudioExtensions| && FormatOfLower(l) == AudioExtensions[i][1..]
        && Contains(l, AudioExtensions[i])
        && forall j :: 0 <= j < i ==> !Contains(l, AudioExtensions[j])
  {
    var e := AudioExtensions;
    if Contains(l, e[0]) {
      assert FormatOfLower(l) == e[0][1..];
    } else if Contains(l, e[1]) {
      assert FormatOfLower(l) == e[1][1..];
    } else if Contains(l, e[2]) {
      assert FormatOfLower(l) == e[2][1..];
    } else if Contains(l, e[3]) {
      assert FormatOfLower(l) == e[3][1..];
    } else if Contains(l, e[4]) {
      assert FormatOfLower(l) == e[4][1..];
    }
  }

  /** The HTML entities cleanAudioURL unescapes, in the order it does so. */
  const Entities: seq<(string, string)> := [("&amp;", "&"), ("&#x2F;", "/"), ("&#47;", "/")]

  /** The replacements of `entities`, applied one after the other. */
  function Unescape(url: string, entities: seq<(string, string)>): string
    requires forall i :: 0 <= i < |entities| ==> entities[i].0 != ""
    decreases |entities|
  {
    if entities == [] then url
    else Unescape(ReplaceAll(url, entities[0].0, entities[0].1), entities[1..])
  }

  /** The entity unescaping and trimming that starts cleanAudioURL. */
  function Normalize(rawURL: string): string
  {
    var url := Unescape(rawURL, Entities);
    Trim(TrimSpace(url), IsQuote)
  }

  /** The absolutisation of cleanAudioURL; None where it returns "". The
      "//" branch comes after the "/" branch and so is never taken. */
  function Absolutize(url: string): (r: Option<string>)
    ensures r.Some? ==> HasPrefix(r.value, "http")
  {
    if HasPrefix(url, "http") then Some(url)
    else if HasPrefix(url, "/") then
      assert (BaseURL + url)[..4] == BaseURL[..4];
      Some(BaseURL + url)
    else if HasPrefix(url, "//") then Some("https:" + url)
    else if url != "" && !Contains(url, "javascript:") then
      assert (BaseURL + "/" + url)[..4] == BaseURL[..4];
      Some(BaseURL + "/" + url)
    else None
  }

  /** cleanAudioURL: "" or a URL that starts with "http" and passes isAudioURL. */
  function CleanAudioURL(rawURL: string): (r: string)
    ensures r == "" || (IsAudioURL(r) && HasPrefix(r, "http"))
  {
    var url := Absolutize(Normalize(rawURL));
    if url.None? then ""
    else if !IsAudioURL(url.value) then ""
    else url.value
  }

  /** A protocol-relative reference "//host/path" is treated like a
      root-relative path: the site's base URL is put in front of it. */
  lemma ProtocolRelativeGetsBaseURL(url: string)
    requires HasPrefix(url, "//")
    ensures Absolutize(url) == Some(BaseURL + url)
  {
    assert url[0] == '/';
    assert !HasPrefix(url, "http") by {
      if |url| >= 4 { assert url[..4][0] == url[0]; }
    }
  }

  /** An empty reference, or a non-http relative one naming "javascript:",
      is cleaned to "". */
  lemma RejectedReferences(rawURL: string)
    requires var url := Normalize(rawURL);
      url == "" || (!HasPrefix(url, "http") && !HasPrefix(url, "/") && Contains(url, "javascript:"))
    ensures CleanAudioURL(rawURL) == ""
  {
    var url := Normalize(rawURL);
    NotRootRelative(url);
    assert Absolutize(url).None?;
  }

  /** A relative reference that is neither root-relative nor rejected is
      resolved below the base URL. */
  lemma RelativeReferenceResolved(rawURL: string)
    requires var url := Normalize(rawURL);
      url != "" && !HasPrefix(url, "http") && !HasPrefix(url, "/") && !Contains(url, "javascript:")
    ensures var url := Normalize(rawURL);
      CleanAudioURL(rawURL) == (if IsAudioURL(BaseURL + "/" + url) then BaseURL + "/" + url else "")
  {
    var url := Normalize(rawURL);
    NotRootRelative(url);
    assert Absolutize(url) == Some(BaseURL + "/" + url);
  }

  lemma NotRootRelative(url: string)
    requires !HasPrefix(url, "/")
    ensures !HasPrefix(url, "//")
  {
    if |url| >= 2 { assert url[..2][..1] == url[..1]; }
  }

  // ---------------------------------------------------------------------
  // findAudioElements
  // ---------------------------------------------------------------------

  /** The non-empty src attributes among <source> children, in order. */
  function SourceCandidates(sources: seq<Option<string>>): (r: seq<string>)
    ensures forall k :: 0 <= k < |r| ==> r[k] != ""
    decreases |sources|
  {
    if sources == [] then []
    else
      var last := sources[|sources| - 1];
      SourceCandidates(sources[..|sources| - 1]) + (if last.Some? && last.value != "" then [last.value] else [])
  }

  /** The src values one <audio> element assigns, in order: its own src when
      non-empty (the callback returns before looking at its children),
      otherwise those of its <source> children. */
  function ElementCandidates(e: AudioElement): (r: seq<string>)
    ensures forall k :: 0 <= k < |r| ==> r[k] != ""
  {
    if e.src.Some? && e.src.value != "" then [e.src.value] else SourceCandidates(e.sources)
  }

  /** Every src the scan of the document assigns, in document order. */
  function Candidates(doc: seq<AudioElement>): (r: seq<string>)
    ensures forall k :: 0 <= k < |r| ==> r[k] != ""
    decreases |doc|
  {
    if doc == [] then [] else Candidates(doc[..|doc| - 1]) + ElementCandidates(doc[|doc| - 1])
  }

  function LastOr(xs: seq<string>, default: string): string
  {
    if xs == [] then default else xs[|xs| - 1]
  }

  lemma LastOrAppend(xs: seq<string>, ys: seq<string>, default: string)
    ensures LastOr(xs + ys, default) == LastOr(ys, LastOr(xs, default))
  {
  }

  /** The audio information that the last src assigned gives: none when no
      src was assigned or the src does not clean to an audio URL. */
  function AudioOfSrc(audioURL: string): AudioInfo
  {
    if audioURL != "" then
      var cleanURL := CleanAudioURL(audioURL);
      if cleanURL != "" then AudioInfo(cleanURL, DetectAudioFormat(cleanURL), true, "")
      else AudioInfo("", "", false, "")
    else AudioInfo("", "", false, "")
  }

  /** The last src the scan of a document assigns; "" when it assigns none. */
  function LastSrc(doc: seq<AudioElement>): string
  {
    LastOr(Candidates(doc), "")
  }

  /** The audio information of a document, as a reference definition: the
      last src assigned, cleaned, when that gives a non-empty URL. */
  function AudioOf(doc: seq<AudioElement>): AudioInfo
  {
    AudioOfSrc(LastSrc(doc))
  }

  /** No src gives the not-found value; a src is found exactly when it
      cleans to a non-empty URL, which then starts with "http", passes
      isAudioURL and comes with its detected format. */
  lemma AudioOfSrcMeaning(audioURL: string)
    ensures var info := AudioOfSrc(audioURL);
      && (audioURL == "" ==> info == AudioInfo("", "", false, ""))
      && (info.found <==> audioURL != "" && CleanAudioURL(audioURL) != "")
      && (info.found ==> info.url == CleanAudioURL(audioURL) && info.format == DetectAudioFormat(info.url))
      && (info.found ==> IsAudioURL(info.url) && HasPrefix(info.url, "http"))
      && (!info.found ==> info == AudioInfo("", "", false, ""))
  {
    if audioURL != "" {
      var cleanURL := CleanAudioURL(audioURL);
      assert cleanURL == "" || (IsAudioURL(cleanURL) && HasPrefix(cleanURL, "http"));
    }
  }

  /** The last src assigned is that of the last candidate, which is never
      empty, or "" when there is no candidate. */
  lemma LastSrcIsLastCandidate(doc: seq<AudioElement>)
    ensures var c := Candidates(doc);
      && (c == [] ==> LastSrc(doc) == "")
      && (c != [] ==> c[|c| - 1] != "" && LastSrc(doc) == c[|c| - 1])
  {
  }

  /** The audio of a document is found exactly when the last src assigned
      cleans to a non-empty URL; it is then that URL, which starts with
      "http" and passes isAudioURL, with its detected format, and otherwise
      the empty not-found value. */
  lemma AudioOfMeaning(doc: seq<AudioElement>)
    ensures var info := AudioOf(doc);
      var c := Candidates(doc);
      && (info.found <==> |c| > 0 && CleanAudioURL(c[|c| - 1]) != "")
      && (info.found ==> info.url == CleanAudioURL(c[|c| - 1]) && info.format == DetectAudioFormat(info.url))
      && (info.found ==> IsAudioURL(info.url) && HasPrefix(info.url, "http"))
      && (!info.found ==> info == AudioInfo("", "", false, ""))
  {
    LastSrcIsLastCandidate(doc);
    AudioOfSrcMeaning(LastSrc(doc));
  }

  /** findAudioElements: the audio information of the last src seen. */
  method FindAudioElements(doc: seq<AudioElement>) returns (info: AudioInfo)
    ensures info == AudioOf(doc)
  {
    var audioURL := LastSrcSeen(doc);
    if audioURL != "" {
      var cleanURL := CleanAudioURL(audioURL);
      if cleanURL != "" {
        return AudioInfo(cleanURL, DetectAudioFormat(cleanURL), true, "");
      }
    }
    return AudioInfo("", "", false, "");
  }

  /** The scan of findAudioElements: every <audio> element and, when it has
      no non-empty src, every <source> child, keeping the last src seen. */
  method LastSrcSeen(doc: seq<AudioElement>) returns (audioURL: string)
    ensures audioURL == LastSrc(doc)
  {
    audioURL := "";
    var i := 0;
    while i < |doc|
      invariant 0 <= i <= |doc|
      invariant audioURL == LastOr(Candidates(doc[..i]), "")
    {
      var s := doc[i];
      assert Candidates(doc[..i + 1]) == Candidates(doc[..i]) + ElementCandidates(s) by {
        assert doc[..i + 1][..i] == doc[..i];
      }
      LastOrAppend(Candidates(doc[..i]), ElementCandidates(s), "");
      if s.src.Some? && s.src.value != "" {
        audioURL := s.src.value;
      } else {
        audioURL := LastSourceSrc(s.sources, audioURL);
      }
      i := i + 1;
    }
    assert doc[..i] == doc;
  }

  /** The scan of the <source> children of one <audio> element, starting
      from the src seen so far. */
  method LastSourceSrc(sources: seq<Option<string>>, seen: string) returns (audioURL: string)
    ensures audioURL == LastOr(SourceCandidates(sources), seen)
  {
    audioURL := seen;
    var j := 0;
    while j < |sources|
      invariant 0 <= j <= |sources|
      invariant audioURL == LastOr(SourceCandidates(sources[..j]), seen)
    {
      var source := sources[j];
      assert sources[..j + 1][..j] == sources[..j];
      if source.Some? && source.value != "" {
        audioURL := source.value;
      }
      j := j + 1;
    }
    assert sources[..j] == sources;
  }

  // ---------------------------------------------------------------------
  // extractAudioURL, GetAudioURL
  // ---------------------------------------------------------------------

  /** extractAudioURL, as a reference definition. */
  function ExtractedAudio(html: Html): (r: Result<AudioInfo, string>)
  {
    match html
    case Unparseable => Failure("HTML parsing failed")
    case Document(doc) =>
      var info := AudioOf(doc);
      if info.found then Success(info)
      else Success(AudioInfo("", "", false, "No audio link found"))
  }

  /** GetAudioURL, as a reference definition: a transport failure, a status
      other than 200 or an unparseable page is an error. */
  function AudioLookup(f: Fetch): (r: Result<AudioInfo, string>)
    ensures f.NetworkError? || (f.HttpResponse? && f.status != 200) ==> r.Failure?
    ensures r.Success? && r.value.found ==> IsAudioURL(r.value.url) && HasPrefix(r.value.url, "http")
  {
    match f
    case NetworkError => Failure("fail to fetch audio URL")
    case HttpResponse(status, body) =>
      if status != 200 then Failure("HTTP error")
      else ExtractedAudio(body)
  }

  method ExtractAudioURL(html: Html) returns (r: Result<AudioInfo, string>)
    ensures r == ExtractedAudio(html)
    ensures r.Success? ==> html.Document? && (r.value.found <==> AudioOf(html.audios).found)
  {
    if html.Unparseable? {
      return Failure("HTML parsing failed");
    }
    var audioInfo := FindAudioElements(html.audios);
    if audioInfo.found {
      return Success(audioInfo);
    }
    return Success(AudioInfo("", "", false, "No audio link found"));
  }

  /** GetAudioURL: the page of `word` is what `lookup` gives for it (the
      URL is built from the lower-cased, query-escaped word). */
  method GetAudioURL(word: string, lookup: string -> Fetch) returns (r: Result<AudioInfo, string>)
    ensures r == AudioLookup(lookup(word))
  {
    var resp := lookup(word);
    if resp.NetworkError? {
      return Failure("fail to fetch audio URL");
    }
    if resp.status != 200 {
      return Failure("HTTP error");
    }
    r := ExtractAudioURL(resp.body);
  }

  // ---------------------------------------------------------------------
  // Process
  // ---------------------------------------------------------------------

  datatype ProcessResult = ProcessResult(err: Option<Error>, fields: map<string, string>)

  /** What Process does to a field mapping, as a reference definition. */
  function Processed(p: NoteProcessor, fields: map<string, string>, config: ProcessorConfig,
                     lookup: string -> Fetch): ProcessResult
  {
    match p
    case DwdsAudio =>
      if config.sourceField == "" || config.targetField == "" then
        ProcessResult(Some(ProcessorConfigMissing), fields)
      else if config.sourceField !in fields || fields[config.sourceField] == "" then
        ProcessResult(None, fields)
      else
        var audioInfo := AudioLookup(lookup(fields[config.sourceField]));
        if audioInfo.Failure? then ProcessResult(None, fields)
        else if audioInfo.value.found then
          ProcessResult(None, fields[config.targetField := audioInfo.value.url])
        else ProcessResult(None, fields)
  }

  /** A processing step fails exactly for a missing source or target field
      name, and then changes nothing; it changes nothing either when the
      source field is absent or empty, or when the lookup fails. */
  lemma ProcessedErrors(p: NoteProcessor, fields: map<string, string>, config: ProcessorConfig,
                        lookup: string -> Fetch)
    ensures var r := Processed(p, fields, config, lookup);
      && (r.err.Some? <==> config.sourceField == "" || config.targetField == "")
      && (r.err.Some? ==> r.err.value == ProcessorConfigMissing && r.fields == fields)
      && (config.sourceField !in fields || fields[config.sourceField] == "" ==> r.fields == fields)
      && (&& config.sourceField != "" && config.targetField != ""
          && config.sourceField in fields && fields[config.sourceField] != ""
          && AudioLookup(lookup(fields[config.sourceField])).Failure?
          ==> r == ProcessResult(None, fields))
  {
  }

  /** A processing step touches no field but the target, and a target it
      changes holds a URL that starts with "http" and passes isAudioURL;
      a found URL is written to the target, and a failed lookup or one
      that finds nothing changes nothing. */
  lemma ProcessedWritesOnlyTarget(p: NoteProcessor, fields: map<string, string>, config: ProcessorConfig,
                                  lookup: string -> Fetch)
    ensures var r := Processed(p, fields, config, lookup);
      forall k :: k in fields && k != config.targetField ==> k in r.fields && r.fields[k] == fields[k]
    ensures var r := Processed(p, fields, config, lookup);
      forall k :: k in r.fields && k != config.targetField ==> k in fields
    ensures var r := Processed(p, fields, config, lookup);
      r.fields != fields ==>
        && config.targetField in r.fields
        && IsAudioURL(r.fields[config.targetField])
        && HasPrefix(r.fields[config.targetField], "http")
    ensures var r := Processed(p, fields, config, lookup);
      (&& config.sourceField != "" && config.targetField != ""
       && config.sourceField in fields && fields[config.sourceField] != "")
      ==>
        var audio := AudioLookup(lookup(fields[config.sourceField]));
        && (audio.Success? && audio.value.found ==>
              r == ProcessResult(None, fields[config.targetField := audio.value.url]))
        && (audio.Success? && !audio.value.found ==> r == ProcessResult(None, fields))
  {
  }

  /** Process: run the step on `note`, writing at most its target field. */
  method Process(p: NoteProcessor, note: NoteData, config: ProcessorConfig, lookup: string -> Fetch)
    returns (err: Option<Error>)
    modifies note
    ensures ProcessResult(err, note.fields) == Processed(p, old(note.fields), config, lookup)
  {
    match p {
      case DwdsAudio =>
        var sourceField := config.sourceField;
        var targetField := config.targetField;
        if sourceField == "" || targetField == "" {
          return Some(ProcessorConfigMissing);
        }
        if sourceField !in note.fields || note.fields[sourceField] == "" {
          return None;
        }
        var source := note.fields[sourceField];
        var audioInfo := GetAudioURL(source, lookup);
        if audioInfo.Failure? {
          return None;
        }
        if audioInfo.value.found {
          note.fields := note.fields[targetField := audioInfo.value.url];
        }
        return None;
    }
  }
}
