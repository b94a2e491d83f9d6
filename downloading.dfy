/**
 * `BaseDownloader` / `YoutubeDownloader` of `downloaders.py`: the option
 * map handed to the media-extraction engine, and the loop of
 * `download_and_index` that counts downloads and index writes.
 */
module Downloading {
  import opened Wrappers
  import Platform

  /** A value in the engine's option map. */
  datatype OptValue =
    | OBool(b: bool)
    | OInt(i: int)
    | OStr(s: string)
    | OList(items: seq<OptValue>)
    | ODict(entries: map<string, OptValue>)
    | OForeign(name: string)   // an object the program passes through (logger, hook)

  /** A key of the engine's option map; `Name` is the key string the engine reads. */
  datatype OptionKey =
    | Verbose | PlaylistStart | PreferFfmpeg | WriteSubtitles | IgnoreErrors | FragmentRetries
    | Retries | ExtractFlat | Logger | ProgressHooks | OutTmpl | PostProcessors | PostProcessorArgs
    | MergeOutputFormat | Format
  {
    function Name(): string {
      match this
      case Verbose => "verbose"
      case PlaylistStart => "playliststart"
      case PreferFfmpeg => "prefer_ffmpeg"
      case WriteSubtitles => "writesubtitles"
      case IgnoreErrors => "ignoreerrors"
      case FragmentRetries => "fragment_retries"
      case Retries => "retries"
      case ExtractFlat => "extract_flat"
      case Logger => "logger"
      case ProgressHooks => "progress_hooks"
      case OutTmpl => "outtmpl"
      case PostProcessors => "postprocessors"
      case PostProcessorArgs => "postprocessor_args"
      case MergeOutputFormat => "merge_output_format"
      case Format => "format"
    }
  }

  /** The settings `BaseDownloader.__init__` receives, apart from the logger and hook. */
  datatype Settings = Settings(
    shouldLogEverything: bool,
    videoOnly: bool,
    crf: string,
    encodingStandard: string,
    useH265: bool,
    maxVideoQuality: Option<string>,
    maxAudioQuality: string,
    maxFileSize: Option<string>,
    pathToSaveLocation: string)

  const OutputNameTemplate: string := "%(title)s.%(ext)s"
  const AudioOnlyFormat: string := "bestaudio/best"

  /** Two-argument `os.path.join` with POSIX separators. */
  function PathJoin(a: string, b: string): (r: string)
    ensures |b| > 0 && b[0] == '/' ==> r == b
    ensures !(|b| > 0 && b[0] == '/') ==> |r| >= |a| + |b| && r[..|a|] == a && r[|r| - |b|..] == b
  {
    if |b| > 0 && b[0] == '/' then b
    else if a == "" || a[|a| - 1] == '/' then a + b
    else a + "/" + b
  }

  function Codec(useH265: bool): string {
    if useH265 then "libx265" else "libx264"
  }

  function VideoConvertor(): OptValue {
    OList([ODict(map["key" := OStr("FFmpegVideoConvertor"), "preferedformat" := OStr("mkv")])])
  }

  function AudioExtractor(audioFormat: string): OptValue {
    OList([ODict(map["key" := OStr("FFmpegExtractAudio"), "preferredcodec" := OStr("opus"),
                     "preferredquality" := OStr(audioFormat)])])
  }

  function DefaultConversionArgs(useH265: bool, crf: string, encodingStandard: string, audioFormat: string): OptValue {
    OList([OStr("-c:v"), OStr(Codec(useH265)), OStr("-c:a"), OStr("libopus"), OStr("-crf"), OStr(crf),
           OStr("-b:a"), OStr(audioFormat + "k"), OStr("-preset"), OStr(encodingStandard)])
  }

  function VideoOnlyConversionArgs(useH265: bool, crf: string, encodingStandard: string): OptValue {
    OList([OStr("-c:v"), OStr(Codec(useH265)), OStr("-crf"), OStr(crf),
           OStr("-preset"), OStr(encodingStandard), OStr("-na")])
  }

  function VideoFormat(videoFormat: string): string {
    "bestvideo[height<=" + videoFormat + "]+bestaudio/best[height<=" + videoFormat + "]"
  }

  function FileSizeFilter(maxFileSize: string): string {
    "[filesize<=" + maxFileSize + "M]"
  }

  /** The options every downloader starts from. */
  function BaseOptions(shouldLogEverything: bool, logger: OptValue, hook: OptValue): map<OptionKey, OptValue> {
    map[
      Verbose := OBool(shouldLogEverything),
      PlaylistStart := OInt(1),
      PreferFfmpeg := OBool(true),
      WriteSubtitles := OBool(false),
      IgnoreErrors := OBool(true),
      FragmentRetries := OInt(5),
      Retries := OInt(3),
      ExtractFlat := OStr("discard_in_playlist"),
      Logger := logger,
      ProgressHooks := OList([hook])
    ]
  }

  /** The format selector before any size limit: none for video-only downloads. */
  function FormatSelector(s: Settings): Option<string> {
    if s.videoOnly then None
    else if s.maxVideoQuality.None? then Some(AudioOnlyFormat)
    else Some(VideoFormat(s.maxVideoQuality.value))
  }

  /** The entry of `m` under `k`, if any (`dict.get`). */
  function Get(m: map<OptionKey, OptValue>, k: OptionKey): Option<OptValue> {
    if k in m then Some(m[k]) else None
  }

  /** What `dict.get(k)` gives on the base options. */
  function BaseEntry(shouldLogEverything: bool, logger: OptValue, hook: OptValue, k: OptionKey): Option<OptValue> {
    match k
    case Verbose => Some(OBool(shouldLogEverything))
    case PlaylistStart => Some(OInt(1))
    case PreferFfmpeg => Some(OBool(true))
    case WriteSubtitles => Some(OBool(false))
    case IgnoreErrors => Some(OBool(true))
    case FragmentRetries => Some(OInt(5))
    case Retries => Some(OInt(3))
    case ExtractFlat => Some(OStr("discard_in_playlist"))
    case Logger => Some(logger)
    case ProgressHooks => Some(OList([hook]))
    case _ => None
  }

  /**
   * Key by key, the options after the save location and the conversion
   * setup: the output template, the post-processor entries that the chosen
   * setup sets, and the base entries; never a format.
   */
  function ConvertedEntry(s: Settings, logger: OptValue, hook: OptValue, k: OptionKey): Option<OptValue> {
    match k
    case OutTmpl => Some(OStr(PathJoin(s.pathToSaveLocation, OutputNameTemplate)))
    case PostProcessors =>
      Some(if !s.videoOnly && s.maxVideoQuality.None? then AudioExtractor(s.maxAudioQuality) else VideoConvertor())
    case PostProcessorArgs =>
      if s.videoOnly then Some(VideoOnlyConversionArgs(s.useH265, s.crf, s.encodingStandard))
      else if s.maxVideoQuality.Some? then Some(DefaultConversionArgs(s.useH265, s.crf, s.encodingStandard, s.maxAudioQuality))
      else None
    case MergeOutputFormat => if !s.videoOnly && s.maxVideoQuality.Some? then Some(OStr("mkv")) else None
    case _ => BaseEntry(s.shouldLogEverything, logger, hook, k)
  }

  /** Key by key, the complete options: the converted ones and the format, if there is one. */
  function ExpectedEntry(s: Settings, logger: OptValue, hook: OptValue, k: OptionKey): Option<OptValue> {
    if k != Format then ConvertedEntry(s, logger, hook, k)
    else if FormatSelector(s).Some? || s.maxFileSize.Some? then
      Some(OStr(FormatSelector(s).GetOr("") + (if s.maxFileSize.Some? then FileSizeFilter(s.maxFileSize.value) else "")))
    else None
  }

  /** Every key of the engine's option map. */
  const OptionKeys: set<OptionKey> := {
    Verbose, PlaylistStart, PreferFfmpeg, WriteSubtitles, IgnoreErrors, FragmentRetries, Retries, ExtractFlat,
    Logger, ProgressHooks, OutTmpl, PostProcessors, PostProcessorArgs, MergeOutputFormat, Format }

  /** The options after the save location and one of the three conversion setups. */
  function ConvertedOptions(s: Settings, logger: OptValue, hook: OptValue): map<OptionKey, OptValue> {
    map k | k in OptionKeys && ConvertedEntry(s, logger, hook, k).Some? :: ConvertedEntry(s, logger, hook, k).value
  }

  /**
   * The complete option map a downloader with these settings hands to the
   * engine: the format entry is the selector, if any, followed by the size
   * filter, if any.
   */
  function ExpectedOptions(s: Settings, logger: OptValue, hook: OptValue): map<OptionKey, OptValue> {
    map k | k in OptionKeys && ExpectedEntry(s, logger, hook, k).Some? :: ExpectedEntry(s, logger, hook, k).value
  }

  lemma EveryOptionKey(k: OptionKey)
    ensures k in OptionKeys
  {
  }

  lemma BaseOptionsEntries(shouldLogEverything: bool, logger: OptValue, hook: OptValue, k: OptionKey)
    ensures Get(BaseOptions(shouldLogEverything, logger, hook), k) == BaseEntry(shouldLogEverything, logger, hook, k)
  {
  }

  /** The map the conversion setups build agrees with `ConvertedEntry` on every key. */
  lemma ConvertedOptionsEntries(s: Settings, logger: OptValue, hook: OptValue, k: OptionKey)
    ensures Get(ConvertedOptions(s, logger, hook), k) == ConvertedEntry(s, logger, hook, k)
  {
    EveryOptionKey(k);
  }

  /** The complete map agrees with `ExpectedEntry` on every key. */
  lemma ExpectedOptionsEntries(s: Settings, logger: OptValue, hook: OptValue, k: OptionKey)
    ensures Get(ExpectedOptions(s, logger, hook), k) == ExpectedEntry(s, logger, hook, k)
  {
    EveryOptionKey(k);
  }

  /** Two option maps with the same entry under every key are equal. */
  lemma OptionsEqual(m: map<OptionKey, OptValue>, n: map<OptionKey, OptValue>)
    requires forall k: OptionKey :: Get(m, k) == Get(n, k)
    ensures m == n
  {
    assert m.Keys == n.Keys by {
      forall k | k in m ensures k in n { assert Get(m, k).Some?; }
      forall k | k in n ensures k in m { assert Get(n, k).Some?; }
    }
    forall k | k in m ensures m[k] == n[k] { assert Get(m, k) == Get(n, k); }
  }

  /** The conversion setup never sets the format entry; the fixed entries stay. */
  lemma ConvertedOptionsFacts(s: Settings, logger: OptValue, hook: OptValue)
    ensures var c := ConvertedOptions(s, logger, hook);
      Format !in c &&
      Get(c, Retries) == Some(OInt(3)) && Get(c, FragmentRetries) == Some(OInt(5)) &&
      Get(c, IgnoreErrors) == Some(OBool(true)) && Get(c, Verbose) == Some(OBool(s.shouldLogEverything)) &&
      Get(c, Logger) == Some(logger) && Get(c, ProgressHooks) == Some(OList([hook])) &&
      Get(c, OutTmpl) == Some(OStr(PathJoin(s.pathToSaveLocation, OutputNameTemplate))) &&
      (PostProcessorArgs in c <==> s.videoOnly || s.maxVideoQuality.Some?) &&
      (MergeOutputFormat in c <==> !s.videoOnly && s.maxVideoQuality.Some?) &&
      Get(c, PostProcessors) == Some(if !s.videoOnly && s.maxVideoQuality.None? then AudioExtractor(s.maxAudioQuality)
                                     else VideoConvertor()) &&
      (s.videoOnly ==> Get(c, PostProcessorArgs) == Some(VideoOnlyConversionArgs(s.useH265, s.crf, s.encodingStandard))) &&
      (!s.videoOnly && s.maxVideoQuality.Some? ==>
         Get(c, PostProcessorArgs) == Some(DefaultConversionArgs(s.useH265, s.crf, s.encodingStandard, s.maxAudioQuality)))
  {
    ConvertedKeepsBase(s, logger, hook);
    ConvertedSetupEntries(s, logger, hook);
  }

  /** The entries the conversion setup writes: none is `format`, and each depends on the setup chosen. */
  lemma ConvertedSetupEntries(s: Settings, logger: OptValue, hook: OptValue)
    ensures var c := ConvertedOptions(s, logger, hook);
      Format !in c &&
      (PostProcessorArgs in c <==> s.videoOnly || s.maxVideoQuality.Some?) &&
      (MergeOutputFormat in c <==> !s.videoOnly && s.maxVideoQuality.Some?) &&
      Get(c, PostProcessors) == Some(if !s.videoOnly && s.maxVideoQuality.None? then AudioExtractor(s.maxAudioQuality)
                                     else VideoConvertor()) &&
      (s.videoOnly ==> Get(c, PostProcessorArgs) == Some(VideoOnlyConversionArgs(s.useH265, s.crf, s.encodingStandard))) &&
      (!s.videoOnly && s.maxVideoQuality.Some? ==>
         Get(c, PostProcessorArgs) == Some(DefaultConversionArgs(s.useH265, s.crf, s.encodingStandard, s.maxAudioQuality)))
  {
    ConvertedOptionsEntries(s, logger, hook, Format);
    ConvertedOptionsEntries(s, logger, hook, PostProcessors);
    ConvertedOptionsEntries(s, logger, hook, PostProcessorArgs);
    ConvertedOptionsEntries(s, logger, hook, MergeOutputFormat);
    // one case per conversion setup
    if s.videoOnly {
    } else if s.maxVideoQuality.None? {
    } else {
    }
  }

  /** The conversion setups leave the format entry to the last step. */
  lemma ConvertedHasNoFormat(s: Settings, logger: OptValue, hook: OptValue)
    ensures Format !in ConvertedOptions(s, logger, hook)
  {
    ConvertedOptionsEntries(s, logger, hook, Format);
  }

  /** The last step only touches the format entry. */
  lemma ExpectedOptionsFacts(s: Settings, logger: OptValue, hook: OptValue)
    ensures var c := ConvertedOptions(s, logger, hook);
      var e := ExpectedOptions(s, logger, hook);
      e - {Format} == c - {Format} &&
      (Format in e <==> FormatSelector(s).Some? || s.maxFileSize.Some?) &&
      (Format in e ==> e[Format] == OStr(FormatSelector(s).GetOr("") +
                                        (if s.maxFileSize.Some? then FileSizeFilter(s.maxFileSize.value) else "")))
  {
    var c := ConvertedOptions(s, logger, hook);
    var e := ExpectedOptions(s, logger, hook);
    forall k: OptionKey ensures Get(e - {Format}, k) == Get(c - {Format}, k) {
      ExpectedOptionsEntries(s, logger, hook, k);
      ConvertedOptionsEntries(s, logger, hook, k);
    }
    OptionsEqual(e - {Format}, c - {Format});
    ExpectedOptionsEntries(s, logger, hook, Format);
  }

  /** The video codec argument is `libx265` exactly when H.265 is asked for. */
  lemma CodecFollowsH265(s: Settings, logger: OptValue, hook: OptValue)
    ensures var opts := ExpectedOptions(s, logger, hook);
      (PostProcessorArgs in opts <==> s.videoOnly || s.maxVideoQuality.Some?) &&
      (PostProcessorArgs in opts ==>
         var args := opts[PostProcessorArgs];
         args.OList? && |args.items| >= 2 && args.items[0] == OStr("-c:v") &&
         (args.items[1] == OStr("libx265") <==> s.useH265))
  {
    ExpectedOptionsEntries(s, logger, hook, PostProcessorArgs);
    assert "libx264" != "libx265" by { assert "libx264"[6] != "libx265"[6]; }
  }

  /** Without video-only and without a video quality, the engine extracts audio only. */
  lemma AudioOnlySetup(s: Settings, logger: OptValue, hook: OptValue)
    requires !s.videoOnly && s.maxVideoQuality.None?
    ensures var opts := ExpectedOptions(s, logger, hook);
      Get(opts, PostProcessors) == Some(AudioExtractor(s.maxAudioQuality)) &&
      AudioExtractor(s.maxAudioQuality).items[0].entries["key"] == OStr("FFmpegExtractAudio") &&
      PostProcessorArgs !in opts && MergeOutputFormat !in opts &&
      Get(opts, Format) == Some(OStr(AudioOnlyFormat + (if s.maxFileSize.Some? then FileSizeFilter(s.maxFileSize.value) else "")))
  {
    ExpectedOptionsEntries(s, logger, hook, PostProcessors);
    ExpectedOptionsEntries(s, logger, hook, PostProcessorArgs);
    ExpectedOptionsEntries(s, logger, hook, MergeOutputFormat);
    ExpectedOptionsEntries(s, logger, hook, Format);
  }

  /** The size filter is appended after whatever format selector is already set. */
  lemma FileSizeFilterAppended(s: Settings, logger: OptValue, hook: OptValue, size: string)
    requires s.maxFileSize == Some(size)
    ensures var opts := ExpectedOptions(s, logger, hook);
      var unlimited := ExpectedOptions(s.(maxFileSize := None), logger, hook);
      Format in opts &&
      opts[Format] == OStr((if Format in unlimited then unlimited[Format].s else "") + FileSizeFilter(size)) &&
      opts - {Format} == unlimited - {Format}
  {
    ExpectedOptionsFacts(s, logger, hook);
    ExpectedOptionsFacts(s.(maxFileSize := None), logger, hook);
    ConvertedIgnoresSizeLimit(s, logger, hook);
    ExpectedOptionsEntries(s, logger, hook, Format);
    ExpectedOptionsEntries(s.(maxFileSize := None), logger, hook, Format);
  }

  /** The conversion setups do not look at the size limit. */
  lemma ConvertedIgnoresSizeLimit(s: Settings, logger: OptValue, hook: OptValue)
    ensures ConvertedOptions(s.(maxFileSize := None), logger, hook) == ConvertedOptions(s, logger, hook)
  {
    forall k: OptionKey
      ensures Get(ConvertedOptions(s.(maxFileSize := None), logger, hook), k) == Get(ConvertedOptions(s, logger, hook), k)
    {
      ConvertedOptionsEntries(s, logger, hook, k);
      ConvertedOptionsEntries(s.(maxFileSize := None), logger, hook, k);
    }
    OptionsEqual(ConvertedOptions(s.(maxFileSize := None), logger, hook), ConvertedOptions(s, logger, hook));
  }

  /** A video-only download sets no format selector unless a size limit applies. */
  lemma VideoOnlyHasNoSelector(s: Settings, logger: OptValue, hook: OptValue)
    requires s.videoOnly
    ensures var opts := ExpectedOptions(s, logger, hook);
      (Format in opts <==> s.maxFileSize.Some?) &&
      (s.maxFileSize.Some? ==> opts[Format] == OStr(FileSizeFilter(s.maxFileSize.value)))
  {
    ExpectedOptionsEntries(s, logger, hook, Format);
  }

  /** The fixed engine options and the output template are always present. */
  lemma BaseOptionsKept(s: Settings, logger: OptValue, hook: OptValue)
    ensures var opts := ExpectedOptions(s, logger, hook);
      Get(opts, Retries) == Some(OInt(3)) && Get(opts, FragmentRetries) == Some(OInt(5)) &&
      Get(opts, IgnoreErrors) == Some(OBool(true)) && Get(opts, Verbose) == Some(OBool(s.shouldLogEverything)) &&
      Get(opts, Logger) == Some(logger) && Get(opts, ProgressHooks) == Some(OList([hook])) &&
      Get(opts, OutTmpl) == Some(OStr(PathJoin(s.pathToSaveLocation, OutputNameTemplate)))
  {
    ConvertedKeepsBase(s, logger, hook);
    ExpectedAgreesOffFormat(s, logger, hook, Retries);
    ExpectedAgreesOffFormat(s, logger, hook, FragmentRetries);
    ExpectedAgreesOffFormat(s, logger, hook, IgnoreErrors);
    ExpectedAgreesOffFormat(s, logger, hook, Verbose);
    ExpectedAgreesOffFormat(s, logger, hook, Logger);
    ExpectedAgreesOffFormat(s, logger, hook, ProgressHooks);
    ExpectedAgreesOffFormat(s, logger, hook, OutTmpl);
  }

  lemma ConvertedKeepsBase(s: Settings, logger: OptValue, hook: OptValue)
    ensures var c := ConvertedOptions(s, logger, hook);
      Get(c, Retries) == Some(OInt(3)) && Get(c, FragmentRetries) == Some(OInt(5)) &&
      Get(c, IgnoreErrors) == Some(OBool(true)) && Get(c, Verbose) == Some(OBool(s.shouldLogEverything)) &&
      Get(c, Logger) == Some(logger) && Get(c, ProgressHooks) == Some(OList([hook])) &&
      Get(c, OutTmpl) == Some(OStr(PathJoin(s.pathToSaveLocation, OutputNameTemplate)))
  {
    ConvertedOptionsEntries(s, logger, hook, Retries);
    ConvertedOptionsEntries(s, logger, hook, FragmentRetries);
    ConvertedOptionsEntries(s, logger, hook, IgnoreErrors);
    ConvertedOptionsEntries(s, logger, hook, Verbose);
    ConvertedOptionsEntries(s, logger, hook, Logger);
    ConvertedOptionsEntries(s, logger, hook, ProgressHooks);
    ConvertedOptionsEntries(s, logger, hook, OutTmpl);
  }

  lemma ExpectedAgreesOffFormat(s: Settings, logger: OptValue, hook: OptValue, k: OptionKey)
    requires k != Format && k in ConvertedOptions(s, logger, hook)
    ensures k in ExpectedOptions(s, logger, hook)
    ensures ExpectedOptions(s, logger, hook)[k] == ConvertedOptions(s, logger, hook)[k]
  {
    ExpectedOptionsEntries(s, logger, hook, k);
    ConvertedOptionsEntries(s, logger, hook, k);
  }

  // ---------------------------------------------------------------------
  // download_and_index

  /**
   * What `extract_info` did for one item: raised `DownloadError`, returned
   * `None` (the engine skips failed items itself when it ignores errors), or
   * returned the item's metadata.
   */
  datatype EngineResult = DownloadErrorRaised | NoInfo | Info(title: string, uploader: string)

  /**
   * One queued item: its canonical URL and id, the engine's result, and
   * what `append_to_index` returns when it is called for it.
   */
  datatype Attempt = Attempt(url: string, displayId: string, engine: EngineResult, indexed: bool)

  /** The arguments of one `append_to_index` call. */
  datatype IndexRequest = IndexRequest(url: string, title: string, artistList: seq<string>, platform: string)

  predicate Downloaded(a: Attempt) {
    a.engine.Info?
  }

  function DownloadCount(items: seq<Attempt>): (n: nat)
    decreases |items|
  {
    if items == [] then 0
    else DownloadCount(items[..|items| - 1]) + (if Downloaded(items[|items| - 1]) then 1 else 0)
  }

  function IndexCount(items: seq<Attempt>, hasIndexer: bool): (n: nat)
    decreases |items|
  {
    if items == [] then 0
    else
      var a := items[|items| - 1];
      IndexCount(items[..|items| - 1], hasIndexer) + (if hasIndexer && Downloaded(a) && a.indexed then 1 else 0)
  }

  function IndexRequests(items: seq<Attempt>, hasIndexer: bool): seq<IndexRequest>
    decreases |items|
  {
    if items == [] then []
    else
      var a := items[|items| - 1];
      IndexRequests(items[..|items| - 1], hasIndexer) +
        (if hasIndexer && Downloaded(a)
         then [IndexRequest(a.url, a.engine.title, [a.engine.uploader], Platform.YoutubeKey)] else [])
  }

  /** Index successes never outnumber downloads, which never outnumber items. */
  lemma {:induction false} CountsOrdered(items: seq<Attempt>, hasIndexer: bool)
    ensures IndexCount(items, hasIndexer) <= DownloadCount(items) <= |items|
    decreases |items|
  {
    if items != [] {
      CountsOrdered(items[..|items| - 1], hasIndexer);
    }
  }

  /** Without an indexer nothing is indexed and no index request is made. */
  lemma {:induction false} NoIndexerNoIndexing(items: seq<Attempt>)
    ensures IndexCount(items, false) == 0 && IndexRequests(items, false) == []
    decreases |items|
  {
    if items != [] {
      NoIndexerNoIndexing(items[..|items| - 1]);
    }
  }

  /** One index request is made per downloaded item when an indexer is given. */
  lemma {:induction false} OneRequestPerDownload(items: seq<Attempt>)
    ensures |IndexRequests(items, true)| == DownloadCount(items)
    decreases |items|
  {
    if items != [] {
      OneRequestPerDownload(items[..|items| - 1]);
    }
  }

  /**
   * Per item each counter rises by at most one, and the index counter only
   * rises when the download counter does.
   */
  lemma CountersStep(items: seq<Attempt>, a: Attempt, hasIndexer: bool)
    ensures var items' := items + [a];
      var dd := DownloadCount(items') - DownloadCount(items);
      var di := IndexCount(items', hasIndexer) - IndexCount(items, hasIndexer);
      0 <= di <= dd <= 1 && (di == 1 <==> hasIndexer && a.engine.Info? && a.indexed)
  {
  }

  /** The position of the first item for which the engine returned `None`, or the length when there is none. */
  function FirstNoInfo(items: seq<Attempt>): (n: nat)
    ensures n <= |items|
    ensures forall j :: 0 <= j < n ==> !items[j].engine.NoInfo?
    ensures n < |items| ==> items[n].engine.NoInfo?
  {
    if items == [] then 0
    else if items[0].engine.NoInfo? then 0
    else 1 + FirstNoInfo(items[1..])
  }

  /** A position with no `None` before it that holds a `None`, or ends the list, is the first `None`. */
  lemma FirstNoInfoIs(items: seq<Attempt>, i: nat)
    requires i <= |items|
    requires forall j :: 0 <= j < i ==> !items[j].engine.NoInfo?
    requires i < |items| ==> items[i].engine.NoInfo?
    ensures FirstNoInfo(items) == i
  {
  }

  /** How the source's loop ends: it returns both counters, or an exception escapes it at one item. */
  datatype LoopOutcome = Finished(downloads: nat, indexed: nat) | Escaped(at: nat)

  /**
   * A `None` from the engine ends the source's loop: it is the first item,
   * and only the items before it are downloaded and indexed; a list whose
   * other item downloads still counts that download in the corrected loop.
   */
  lemma NoInfoEndsLoop()
    ensures var items := [Attempt("u0", "v0", NoInfo, false), Attempt("u1", "v1", Info("t", "a"), true)];
      FirstNoInfo(items) == 0 && IndexRequests(items[..0], true) == [] &&
      DownloadCount(items) == 1 && IndexCount(items, true) == 1
  {
    var items := [Attempt("u0", "v0", NoInfo, false), Attempt("u1", "v1", Info("t", "a"), true)];
    assert items[..1] == [items[0]] && items[..1][..0] == [];
  }

  /** Without a `None` from the engine, the loop as written runs to the end. */
  lemma AsWrittenFinishesWithoutNoInfo(items: seq<Attempt>)
    requires forall j :: 0 <= j < |items| ==> !items[j].engine.NoInfo?
    ensures FirstNoInfo(items) == |items|
  {
    FirstNoInfoIs(items, |items|);
  }

  /** What the video-only setup makes of one entry of a map that agrees with the base options there. */
  lemma VideoOnlyConvertedEntry(s: Settings, logger: OptValue, hook: OptValue, base: map<OptionKey, OptValue>, k: OptionKey)
    requires s.videoOnly
    requires Get(base, k) == BaseEntry(s.shouldLogEverything, logger, hook, k)
    ensures Get(base
              [OutTmpl := OStr(PathJoin(s.pathToSaveLocation, OutputNameTemplate))]
              [PostProcessors := VideoConvertor()]
              [PostProcessorArgs := VideoOnlyConversionArgs(s.useH265, s.crf, s.encodingStandard)], k)
            == ConvertedEntry(s, logger, hook, k)
  {
  }

  /** The save location and the video-only setup, applied to the base options, give the converted map. */
  lemma VideoOnlyConverted(s: Settings, logger: OptValue, hook: OptValue)
    requires s.videoOnly
    ensures BaseOptions(s.shouldLogEverything, logger, hook)
              [OutTmpl := OStr(PathJoin(s.pathToSaveLocation, OutputNameTemplate))]
              [PostProcessors := VideoConvertor()]
              [PostProcessorArgs := VideoOnlyConversionArgs(s.useH265, s.crf, s.encodingStandard)]
            == ConvertedOptions(s, logger, hook)
  {
    var built := BaseOptions(s.shouldLogEverything, logger, hook)
      [OutTmpl := OStr(PathJoin(s.pathToSaveLocation, OutputNameTemplate))]
      [PostProcessors := VideoConvertor()]
      [PostProcessorArgs := VideoOnlyConversionArgs(s.useH265, s.crf, s.encodingStandard)];
    forall k: OptionKey ensures Get(built, k) == Get(ConvertedOptions(s, logger, hook), k) {
      BaseOptionsEntries(s.shouldLogEverything, logger, hook, k);
      VideoOnlyConvertedEntry(s, logger, hook, BaseOptions(s.shouldLogEverything, logger, hook), k);
      ConvertedOptionsEntries(s, logger, hook, k);
    }
    OptionsEqual(built, ConvertedOptions(s, logger, hook));
  }

  /** What the audio-only setup makes of one entry of a map that agrees with the base options there. */
  lemma AudioOnlyConvertedEntry(s: Settings, logger: OptValue, hook: OptValue, base: map<OptionKey, OptValue>, k: OptionKey)
    requires !s.videoOnly && s.maxVideoQuality.None?
    requires Get(base, k) == BaseEntry(s.shouldLogEverything, logger, hook, k)
    ensures Get(base
              [OutTmpl := OStr(PathJoin(s.pathToSaveLocation, OutputNameTemplate))]
              [PostProcessors := AudioExtractor(s.maxAudioQuality)], k)
            == ConvertedEntry(s, logger, hook, k)
  {
  }

  /** The save location and the audio extractor, applied to the base options, give the converted map. */
  lemma AudioOnlyConverted(s: Settings, logger: OptValue, hook: OptValue)
    requires !s.videoOnly && s.maxVideoQuality.None?
    ensures BaseOptions(s.shouldLogEverything, logger, hook)
              [OutTmpl := OStr(PathJoin(s.pathToSaveLocation, OutputNameTemplate))]
              [PostProcessors := AudioExtractor(s.maxAudioQuality)]
            == ConvertedOptions(s, logger, hook)
  {
    var built := BaseOptions(s.shouldLogEverything, logger, hook)
      [OutTmpl := OStr(PathJoin(s.pathToSaveLocation, OutputNameTemplate))]
      [PostProcessors := AudioExtractor(s.maxAudioQuality)];
    forall k: OptionKey ensures Get(built, k) == Get(ConvertedOptions(s, logger, hook), k) {
      BaseOptionsEntries(s.shouldLogEverything, logger, hook, k);
      AudioOnlyConvertedEntry(s, logger, hook, BaseOptions(s.shouldLogEverything, logger, hook), k);
      ConvertedOptionsEntries(s, logger, hook, k);
    }
    OptionsEqual(built, ConvertedOptions(s, logger, hook));
  }

  /** What the default setup makes of one entry of a map that agrees with the base options there. */
  lemma DefaultConvertedEntry(s: Settings, logger: OptValue, hook: OptValue, base: map<OptionKey, OptValue>, k: OptionKey)
    requires !s.videoOnly && s.maxVideoQuality.Some?
    requires Get(base, k) == BaseEntry(s.shouldLogEverything, logger, hook, k)
    ensures Get(base
              [OutTmpl := OStr(PathJoin(s.pathToSaveLocation, OutputNameTemplate))]
              [PostProcessors := VideoConvertor()]
              [PostProcessorArgs := DefaultConversionArgs(s.useH265, s.crf, s.encodingStandard, s.maxAudioQuality)]
              [MergeOutputFormat := OStr("mkv")], k)
            == ConvertedEntry(s, logger, hook, k)
  {
  }

  /** The save location and the default setup, applied to the base options, give the converted map. */
  lemma DefaultConverted(s: Settings, logger: OptValue, hook: OptValue)
    requires !s.videoOnly && s.maxVideoQuality.Some?
    ensures BaseOptions(s.shouldLogEverything, logger, hook)
              [OutTmpl := OStr(PathJoin(s.pathToSaveLocation, OutputNameTemplate))]
              [PostProcessors := VideoConvertor()]
              [PostProcessorArgs := DefaultConversionArgs(s.useH265, s.crf, s.encodingStandard, s.maxAudioQuality)]
              [MergeOutputFormat := OStr("mkv")]
            == ConvertedOptions(s, logger, hook)
  {
    var built := BaseOptions(s.shouldLogEverything, logger, hook)
      [OutTmpl := OStr(PathJoin(s.pathToSaveLocation, OutputNameTemplate))]
      [PostProcessors := VideoConvertor()]
      [PostProcessorArgs := DefaultConversionArgs(s.useH265, s.crf, s.encodingStandard, s.maxAudioQuality)]
      [MergeOutputFormat := OStr("mkv")];
    forall k: OptionKey ensures Get(built, k) == Get(ConvertedOptions(s, logger, hook), k) {
      BaseOptionsEntries(s.shouldLogEverything, logger, hook, k);
      DefaultConvertedEntry(s, logger, hook, BaseOptions(s.shouldLogEverything, logger, hook), k);
      ConvertedOptionsEntries(s, logger, hook, k);
    }
    OptionsEqual(built, ConvertedOptions(s, logger, hook));
  }

  /** Without a size limit, the options are the converted map plus the selector, if there is one. */
  lemma UnlimitedOptions(s: Settings, logger: OptValue, hook: OptValue)
    ensures var c := ConvertedOptions(s, logger, hook);
      ExpectedOptions(s.(maxFileSize := None), logger, hook)
      == if FormatSelector(s).Some? then c[Format := OStr(FormatSelector(s).value)] else c
  {
    var c := ConvertedOptions(s, logger, hook);
    var s' := s.(maxFileSize := None);
    var e := ExpectedOptions(s', logger, hook);
    var r := if FormatSelector(s).Some? then c[Format := OStr(FormatSelector(s).value)] else c;
    ConvertedIgnoresSizeLimit(s, logger, hook);
    ExpectedOptionsFacts(s', logger, hook);
    ConvertedHasNoFormat(s, logger, hook);
    assert FormatSelector(s') == FormatSelector(s);
    assert FormatSelector(s).GetOr("") + "" == FormatSelector(s).GetOr("");
    forall k: OptionKey ensures Get(r, k) == Get(e, k) {
      if k != Format {
        assert Get(r, k) == Get(c - {Format}, k);
        assert Get(e, k) == Get(e - {Format}, k);
      }
    }
    OptionsEqual(r, e);
  }

  /** Appending the size filter to the unlimited map gives the complete map. */
  lemma SizeLimitBuilt(s: Settings, logger: OptValue, hook: OptValue, size: string)
    requires s.maxFileSize == Some(size)
    ensures var u := ExpectedOptions(s.(maxFileSize := None), logger, hook);
      u[Format := OStr((if Format in u && u[Format].OStr? then u[Format].s else "") + FileSizeFilter(size))]
      == ExpectedOptions(s, logger, hook)
  {
    var u := ExpectedOptions(s.(maxFileSize := None), logger, hook);
    var built := u[Format := OStr((if Format in u && u[Format].OStr? then u[Format].s else "") + FileSizeFilter(size))];
    FileSizeFilterAppended(s, logger, hook, size);
    ExpectedOptionsEntries(s.(maxFileSize := None), logger, hook, Format);
    var e := ExpectedOptions(s, logger, hook);
    forall k: OptionKey ensures Get(built, k) == Get(e, k) {
      if k != Format {
        assert Get(built, k) == Get(u - {Format}, k);
        assert Get(e, k) == Get(e - {Format}, k);
      }
    }
    OptionsEqual(built, e);
  }

  class YoutubeDownloader {
    /** The option map handed to the engine (`_yt_dlp_options`). */
    var options: map<OptionKey, OptValue>

    constructor (s: Settings, logger: OptValue, hook: OptValue)
      ensures options == ExpectedOptions(s, logger, hook)
    {
      options := BaseOptions(s.shouldLogEverything, logger, hook);
      new;
      AddSaveLocation(s.pathToSaveLocation);
      if s.videoOnly {
        ChangeToVideoOnlyConversionSetup(s.useH265, s.crf, s.encodingStandard);
        VideoOnlyConverted(s, logger, hook);
      } else if s.maxVideoQuality.None? {
        AudioOnlyConverted(s, logger, hook);
        ChangeToAudioOnlyConversionSetup(s.maxAudioQuality);
      } else {
        ChangeToDefaultConversionSetup(s.useH265, s.crf, s.encodingStandard, s.maxAudioQuality);
        DefaultConverted(s, logger, hook);
        ConvertedHasNoFormat(s, logger, hook);
        AddVideoFormatSetup(s.maxVideoQuality.value);
        assert "" + VideoFormat(s.maxVideoQuality.value) == VideoFormat(s.maxVideoQuality.value);
      }
      UnlimitedOptions(s, logger, hook);
      if s.maxFileSize.Some? {
        AddMaxFileSizeSetup(s.maxFileSize.value);
        SizeLimitBuilt(s, logger, hook, s.maxFileSize.value);
      } else {
        assert s.(maxFileSize := None) == s;
      }
    }

    method AddSaveLocation(pathToSaveLocation: string)
      modifies this
      ensures options == old(options)[OutTmpl := OStr(PathJoin(pathToSaveLocation, OutputNameTemplate))]
    {
      options := options[OutTmpl := OStr(PathJoin(pathToSaveLocation, OutputNameTemplate))];
    }

    /** Appends the size filter to the current format, or to the empty one. */
    method AddMaxFileSizeSetup(maxFileSize: string)
      modifies this
      ensures options == old(options)[Format :=
        OStr((if Format in old(options) && old(options)[Format].OStr? then old(options)[Format].s else "")
             + FileSizeFilter(maxFileSize))]
    {
      var current := if Format in options && options[Format].OStr? then options[Format].s else "";
      options := options[Format := OStr(current + FileSizeFilter(maxFileSize))];
    }

    /** Appends the height-limited video selector to the current format. */
    method AddVideoFormatSetup(videoFormat: string)
      modifies this
      ensures options == old(options)[Format :=
        OStr((if Format in old(options) && old(options)[Format].OStr? then old(options)[Format].s else "")
             + VideoFormat(videoFormat))]
    {
      var current := if Format in options && options[Format].OStr? then options[Format].s else "";
      options := options[Format := OStr(current + VideoFormat(videoFormat))];
    }

    method ChangeToDefaultConversionSetup(useH265: bool, crf: string, encodingStandard: string, audioFormat: string)
      modifies this
      ensures options == old(options)[PostProcessors := VideoConvertor()]
        [PostProcessorArgs := DefaultConversionArgs(useH265, crf, encodingStandard, audioFormat)]
        [MergeOutputFormat := OStr("mkv")]
    {
      options := options[PostProcessors := VideoConvertor()];
      options := options[PostProcessorArgs := DefaultConversionArgs(useH265, crf, encodingStandard, audioFormat)];
      options := options[MergeOutputFormat := OStr("mkv")];
    }

    method ChangeToAudioOnlyConversionSetup(audioFormat: string)
      modifies this
      ensures options == old(options)[PostProcessors := AudioExtractor(audioFormat)]
        [Format := OStr(AudioOnlyFormat)]
    {
      options := options[PostProcessors := AudioExtractor(audioFormat)];
      options := options[Format := OStr(AudioOnlyFormat)];
    }

    method ChangeToVideoOnlyConversionSetup(useH265: bool, crf: string, encodingStandard: string)
      modifies this
      ensures options == old(options)[PostProcessors := VideoConvertor()]
        [PostProcessorArgs := VideoOnlyConversionArgs(useH265, crf, encodingStandard)]
    {
      options := options[PostProcessors := VideoConvertor()];
      options := options[PostProcessorArgs := VideoOnlyConversionArgs(useH265, crf, encodingStandard)];
    }

    /**
     * `download_and_index` as written: `raise yt_dlp.DownloadError` calls the
     * exception class without the message its constructor needs, so a `None`
     * from the engine raises `TypeError` instead, which the loop's handler
     * does not catch. The loop ends there; the index requests made so far stay.
     */
    method DownloadAndIndexAsWritten(urlList: seq<Attempt>, hasIndexer: bool)
      returns (outcome: LoopOutcome, requests: seq<IndexRequest>)
      ensures var n := FirstNoInfo(urlList);
        requests == IndexRequests(urlList[..n], hasIndexer) &&
        outcome == if n < |urlList| then Escaped(n)
                   else Finished(DownloadCount(urlList), IndexCount(urlList, hasIndexer))
    {
      var downloadSuccessCount, indexSuccessCount := 0, 0;
      requests := [];
      var i := 0;
      while i < |urlList|
        invariant 0 <= i <= |urlList|
        invariant forall j :: 0 <= j < i ==> !urlList[j].engine.NoInfo?
        invariant downloadSuccessCount == DownloadCount(urlList[..i])
        invariant indexSuccessCount == IndexCount(urlList[..i], hasIndexer)
        invariant requests == IndexRequests(urlList[..i], hasIndexer)
      {
        var url := urlList[i];
        assert urlList[..i + 1][..i] == urlList[..i];
        match url.engine {
          case DownloadErrorRaised =>
          case NoInfo =>
            FirstNoInfoIs(urlList, i);
            return Escaped(i), requests;
          case Info(title, uploader) =>
            downloadSuccessCount := downloadSuccessCount + 1;
            if hasIndexer {
              requests := requests + [IndexRequest(url.url, title, [uploader], Platform.YoutubeKey)];
              if url.indexed {
                indexSuccessCount := indexSuccessCount + 1;
              }
            }
        }
        i := i + 1;
      }
      assert urlList[..i] == urlList;
      FirstNoInfoIs(urlList, i);
      outcome := Finished(downloadSuccessCount, indexSuccessCount);
    }

    /**
     * The loop of `download_and_index`: one engine call per item, in order;
     * a failed item is skipped; a downloaded item is indexed when an indexer
     * is given. Returns the two counters and the index calls made.
     */
    method DownloadAndIndex(urlList: seq<Attempt>, hasIndexer: bool)
      returns (downloadSuccessCount: nat, indexSuccessCount: nat, requests: seq<IndexRequest>)
      ensures downloadSuccessCount == DownloadCount(urlList)
      ensures indexSuccessCount == IndexCount(urlList, hasIndexer)
      ensures requests == IndexRequests(urlList, hasIndexer)
      ensures indexSuccessCount <= downloadSuccessCount <= |urlList|
    {
      downloadSuccessCount, indexSuccessCount, requests := 0, 0, [];
      var i := 0;
      while i < |urlList|
        invariant 0 <= i <= |urlList|
        invariant downloadSuccessCount == DownloadCount(urlList[..i])
        invariant indexSuccessCount == IndexCount(urlList[..i], hasIndexer)
        invariant requests == IndexRequests(urlList[..i], hasIndexer)
      {
        var url := urlList[i];
        assert urlList[..i + 1][..i] == urlList[..i];
        match url.engine {
          case DownloadErrorRaised =>
          case NoInfo =>
          case Info(title, uploader) =>
            downloadSuccessCount := downloadSuccessCount + 1;
            if hasIndexer {
              requests := requests + [IndexRequest(url.url, title, [uploader], Platform.YoutubeKey)];
              if url.indexed {
                indexSuccessCount := indexSuccessCount + 1;
              }
            }
        }
        i := i + 1;
      }
      assert urlList[..i] == urlList;
      CountsOrdered(urlList, hasIndexer);
    }
  }
}
