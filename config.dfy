/**
 * `DownloadManager/__init__.py`: the allowed option codes and their lookup
 * tables, the index-file-name check, the mapping strings shown in error
 * messages, and the validate-then-map body of `import_config`.
 */
module Config {
  import opened Wrappers
  import PyStr

  /**
   * A Python dict literal: its keys in insertion order and its entries.
   * Iterating the dict visits `order`.
   */
  datatype Table<V> = Table(order: seq<string>, entries: map<string, V>)

  predicate WellFormedTable<V>(t: Table<V>) {
    (set k | k in t.order) == t.entries.Keys &&
    (forall i, j :: 0 <= i < j < |t.order| ==> t.order[i] != t.order[j])
  }

  const AllowedVideoFormats: seq<string> := ["6", "5", "4", "3", "2", "1", "0", "-1"]
  const VideoFormatToQuality: Table<Option<string>> := Table(
    ["-1", "0", "1", "2", "3", "4", "5", "6"],
    map["-1" := None, "0" := Some("144"), "1" := Some("240"), "2" := Some("360"), "3" := Some("480"),
        "4" := Some("720"), "5" := Some("1080"), "6" := Some("2160")])

  const AllowedAudioFormat: seq<string> := ["3", "2", "1", "0"]
  const AudioFormatToQuality: Table<string> := Table(
    ["0", "1", "2", "3"],
    map["0" := "64", "1" := "96", "2" := "128", "3" := "160"])

  const AllowedEncodingStandards: seq<string> := ["4", "3", "2", "1", "0"]
  const EncodingStandardToPreset: Table<string> := Table(
    ["0", "1", "2", "3", "4"],
    map["0" := "faster", "1" := "fast", "2" := "medium", "3" := "slow", "4" := "slower"])

  const AllowedCrfStandards: seq<string> := ["4", "3", "2", "1", "0"]
  const CrfStandardToValue: Table<string> := Table(
    ["0", "1", "2", "3", "4"],
    map["0" := "32", "1" := "28", "2" := "23", "3" := "21", "4" := "18"])

  /** The allowed video codes are exactly the keys of the video table. */
  lemma AllowedVideoFormatsAreTableKeys()
    ensures WellFormedTable(VideoFormatToQuality)
    ensures forall x :: x in AllowedVideoFormats <==> x in VideoFormatToQuality.entries
  {
  }

  lemma AllowedAudioFormatAreTableKeys()
    ensures WellFormedTable(AudioFormatToQuality)
    ensures forall x :: x in AllowedAudioFormat <==> x in AudioFormatToQuality.entries
  {
  }

  lemma AllowedEncodingStandardsAreTableKeys()
    ensures WellFormedTable(EncodingStandardToPreset)
    ensures forall x :: x in AllowedEncodingStandards <==> x in EncodingStandardToPreset.entries
  {
  }

  lemma AllowedCrfStandardsAreTableKeys()
    ensures WellFormedTable(CrfStandardToValue)
    ensures forall x :: x in AllowedCrfStandards <==> x in CrfStandardToValue.entries
  {
  }

  // ---------------------------------------------------------------------
  // is_valid_indexing_file

  const InvalidChars: seq<char> := ['/', '\\', ':', '*', '?', '"', '<', '>', '|']

  /** `is_valid_indexing_file`: false as soon as one forbidden character occurs in the name. */
  method IsValidIndexingFile(indexingFileName: string) returns (valid: bool)
    ensures valid <==> ValidIndexFileName(indexingFileName)
  {
    for k := 0 to |InvalidChars|
      invariant forall j :: 0 <= j < k ==> InvalidChars[j] !in indexingFileName
    {
      if InvalidChars[k] in indexingFileName {
        return false;
      }
    }
    return true;
  }

  predicate ValidIndexFileName(name: string) {
    forall i :: 0 <= i < |name| ==> name[i] !in InvalidChars
  }

  // ---------------------------------------------------------------------
  // get_video_format_mapping_str / get_audio_format_mapping_str

  /** `str(value)` for the video table: `None` prints as `None`. */
  function ShowQuality(q: Option<string>): string {
    match q
    case None => "None"
    case Some(s) => s
  }

  /** `f"{key}: {value}"` for the first `n` keys of the video table, concatenated. */
  function VideoMappingText(n: nat): string
    requires n <= |VideoFormatToQuality.order|
  {
    if n == 0 then ""
    else
      var key := VideoFormatToQuality.order[n - 1];
      VideoMappingText(n - 1) + key + ": " + ShowQuality(VideoFormatToQuality.entries[key])
  }

  /** `f"{key}: {value}"` for the first `n` keys of the audio table, concatenated. */
  function AudioMappingText(n: nat): string
    requires n <= |AudioFormatToQuality.order|
  {
    if n == 0 then ""
    else
      var key := AudioFormatToQuality.order[n - 1];
      AudioMappingText(n - 1) + key + ": " + AudioFormatToQuality.entries[key]
  }

  /** The entries follow each other with no separator between them. */
  lemma VideoMappingTextValue()
    ensures VideoMappingText(|VideoFormatToQuality.order|) ==
            "-1: None" + "0: 144" + "1: 240" + "2: 360" + "3: 480" + "4: 720" + "5: 1080" + "6: 2160"
  {
    var t1 := VideoMappingText(1);
    assert t1 == "-1: None";
    var t2 := VideoMappingText(2);
    assert t2 == t1 + "0: 144" by { assert VideoFormatToQuality.order[1] == "0"; }
    var t3 := VideoMappingText(3);
    assert t3 == t2 + "1: 240" by { assert VideoFormatToQuality.order[2] == "1"; }
    var t4 := VideoMappingText(4);
    assert t4 == t3 + "2: 360" by { assert VideoFormatToQuality.order[3] == "2"; }
    var t5 := VideoMappingText(5);
    assert t5 == t4 + "3: 480" by { assert VideoFormatToQuality.order[4] == "3"; }
    var t6 := VideoMappingText(6);
    assert t6 == t5 + "4: 720" by { assert VideoFormatToQuality.order[5] == "4"; }
    var t7 := VideoMappingText(7);
    assert t7 == t6 + "5: 1080" by { assert VideoFormatToQuality.order[6] == "5"; }
    assert VideoMappingText(8) == t7 + "6: 2160" by { assert VideoFormatToQuality.order[7] == "6"; }
  }

  lemma AudioMappingTextValue()
    ensures AudioMappingText(|AudioFormatToQuality.order|) == "0: 64" + "1: 96" + "2: 128" + "3: 160"
  {
    var t1 := AudioMappingText(1);
    assert t1 == "0: 64";
    var t2 := AudioMappingText(2);
    assert t2 == t1 + "1: 96" by { assert AudioFormatToQuality.order[1] == "1"; }
    var t3 := AudioMappingText(3);
    assert t3 == t2 + "2: 128" by { assert AudioFormatToQuality.order[2] == "2"; }
    assert AudioMappingText(4) == t3 + "3: 160" by { assert AudioFormatToQuality.order[3] == "3"; }
  }

  method GetVideoFormatMappingStr() returns (base: string)
    ensures base == VideoMappingText(|VideoFormatToQuality.order|)
  {
    base := "";
    var table := VideoFormatToQuality;
    for i := 0 to |table.order|
      invariant base == VideoMappingText(i)
    {
      var key := table.order[i];
      base := base + key + ": " + ShowQuality(table.entries[key]);
    }
  }

  method GetAudioFormatMappingStr() returns (base: string)
    ensures base == AudioMappingText(|AudioFormatToQuality.order|)
  {
    base := "";
    var table := AudioFormatToQuality;
    for i := 0 to |table.order|
      invariant base == AudioMappingText(i)
    {
      var key := table.order[i];
      base := base + key + ": " + table.entries[key];
    }
  }

  // ---------------------------------------------------------------------
  // import_config

  /** The parsed `.ini` file: section name to option name to raw value. */
  type Sections = map<string, map<string, string>>

  /** The keys of the configuration dict `import_config` returns. */
  datatype ConfigKey =
    | IndexFileName | PathToIndexFile | IndexingFormat | PathToDownloadLocation | VideoOnly
    | MaxDownloadSize | MaxVideoQuality | MaxAudioQuality | EncodingStandard | Crf | UseH265
  {
    function Name(): string {
      match this
      case IndexFileName => "index_file_name"
      case PathToIndexFile => "path_to_index_file"
      case IndexingFormat => "indexing_format"
      case PathToDownloadLocation => "default_download_location"
      case VideoOnly => "video_only"
      case MaxDownloadSize => "max_download_size"
      case MaxVideoQuality => "max_video_quality"
      case MaxAudioQuality => "max_audio_quality"
      case EncodingStandard => "encoding_standard"
      case Crf => "crf"
      case UseH265 => "use_h265"
    }
  }

  datatype ConfigValue = CNone | CStr(s: string) | CBool(b: bool)

  /** `dict.fromkeys` of the configuration keys: every value `None`. */
  const EmptyConfig: map<ConfigKey, ConfigValue> := map[
    IndexFileName := CNone, PathToIndexFile := CNone, IndexingFormat := CNone,
    PathToDownloadLocation := CNone, VideoOnly := CNone, MaxDownloadSize := CNone,
    MaxVideoQuality := CNone, MaxAudioQuality := CNone, EncodingStandard := CNone,
    Crf := CNone, UseH265 := CNone]

  /** The value checks of `import_config`, in the order they run. */
  datatype Check =
    | VideoQualityCheck | AudioQualityCheck | EncodingStandardCheck | CrfCheck
    | VideoOnlyCheck | UseH265Check | IndexFileNameCheck

  function Rank(c: Check): nat {
    match c
    case VideoQualityCheck => 0
    case AudioQualityCheck => 1
    case EncodingStandardCheck => 2
    case CrfCheck => 3
    case VideoOnlyCheck => 4
    case UseH265Check => 5
    case IndexFileNameCheck => 6
  }

  /**
   * Why `import_config` gives up: the file has no sections, an option or
   * section is missing (`KeyError`), or a value fails a check (`ValueError`).
   */
  datatype ConfigError =
    | MissingSectionHeaders
    | MissingKey(key: string)
    | InvalidValue(check: Check, message: string)

  /** The raw option strings, the index file name already normalised. */
  datatype RawOptions = RawOptions(
    indexFileName: string, indexingFormat: string, defaultDownloadLocation: string,
    videoOnly: string, maxDownloadSize: string, maxVideoQuality: string, maxAudioQuality: string,
    encodingStandard: string, crf: string, useH265: string)

  /** `config[section][option]`: a missing section or option raises `KeyError` naming it. */
  function LookupOption(sections: Sections, section: string, option: string): (r: Result<string, ConfigError>)
    ensures r.Success? <==> section in sections && option in sections[section]
    ensures r.Success? ==> r.value == sections[section][option]
  {
    if section !in sections then Failure(MissingKey(section))
    else if option !in sections[section] then Failure(MissingKey(option))
    else Success(sections[section][option])
  }

  /**
   * The reads of `import_config`, in order; `norm` stands for
   * `os.path.normpath`, applied to the index file name as it is read.
   */
  function ReadOptions(sections: Sections, norm: string -> string): Result<RawOptions, ConfigError> {
    if |sections| == 0 then Failure(MissingSectionHeaders)
    else
      var indexFileName :- LookupOption(sections, "indexing", "index_file_name");
      var indexingFormat :- LookupOption(sections, "indexing", "indexing_format");
      var defaultDownloadLocation :- LookupOption(sections, "indexing", "default_download_location");
      var videoOnly :- LookupOption(sections, "downloading", "video_only");
      var maxSize :- LookupOption(sections, "downloading", "max_download_size");
      var maxVideoQuality :- LookupOption(sections, "downloading", "max_video_quality");
      var maxAudioQuality :- LookupOption(sections, "downloading", "max_audio_quality");
      var encodingStandard :- LookupOption(sections, "encoding", "encoding_standard");
      var crf :- LookupOption(sections, "encoding", "crf");
      var useH265 :- LookupOption(sections, "encoding", "use_h265");
      Success(RawOptions(norm(indexFileName), indexingFormat, defaultDownloadLocation, videoOnly, maxSize,
                         maxVideoQuality, maxAudioQuality, encodingStandard, crf, useH265))
  }

  predicate IsBoolText(s: string) {
    s == "true" || s == "false"
  }

  /** Whether the raw options pass one check. */
  predicate Passes(c: Check, o: RawOptions) {
    match c
    case VideoQualityCheck => o.maxVideoQuality in AllowedVideoFormats
    case AudioQualityCheck => o.maxAudioQuality in AllowedAudioFormat
    case EncodingStandardCheck => o.encodingStandard in AllowedEncodingStandards
    case CrfCheck => o.crf in AllowedCrfStandards
    case VideoOnlyCheck => IsBoolText(o.videoOnly)
    case UseH265Check => IsBoolText(o.useH265)
    case IndexFileNameCheck => ValidIndexFileName(o.indexFileName)
  }

  /** `c` fails and every check that runs before it passes. */
  predicate FirstFailing(c: Check, o: RawOptions) {
    !Passes(c, o) && forall d: Check :: Rank(d) < Rank(c) ==> Passes(d, o)
  }

  /** The seven checks passing one by one means every check passes. */
  lemma AllChecksPass(o: RawOptions)
    requires Passes(VideoQualityCheck, o) && Passes(AudioQualityCheck, o)
    requires Passes(EncodingStandardCheck, o) && Passes(CrfCheck, o)
    requires Passes(VideoOnlyCheck, o) && Passes(UseH265Check, o) && Passes(IndexFileNameCheck, o)
    ensures forall c: Check :: Passes(c, o)
  {
  }

  /** A check that fails after every check of lower rank passed is the first to fail. */
  lemma FirstFailingAfter(c: Check, o: RawOptions)
    requires !Passes(c, o)
    requires Rank(c) > 0 ==> Passes(VideoQualityCheck, o)
    requires Rank(c) > 1 ==> Passes(AudioQualityCheck, o)
    requires Rank(c) > 2 ==> Passes(EncodingStandardCheck, o)
    requires Rank(c) > 3 ==> Passes(CrfCheck, o)
    requires Rank(c) > 4 ==> Passes(VideoOnlyCheck, o)
    requires Rank(c) > 5 ==> Passes(UseH265Check, o)
    ensures FirstFailing(c, o)
  {
  }

  /** `python-repr` of a table whose values are strings: `{'0': 'faster', ...}`. */
  function DictRepr(t: Table<string>): string
    requires forall k :: k in t.order ==> k in t.entries
  {
    "{" + PyStr.JoinWith(EntryReprs(t.order, t.entries), ", ") + "}"
  }

  function EntryReprs(order: seq<string>, entries: map<string, string>): (r: seq<string>)
    requires forall k :: k in order ==> k in entries
    ensures |r| == |order|
  {
    if order == [] then []
    else ["'" + order[0] + "': '" + entries[order[0]] + "'"] + EntryReprs(order[1..], entries)
  }

  function VideoQualityMessage(mapping: string): string {
    "Invalid max video quality. Must be one of the following: " + PyStr.JoinWith(AllowedVideoFormats, ", ")
    + ". Number to quality mapping: " + mapping
  }

  function AudioQualityMessage(mapping: string): string {
    "Invalid max audio quality. Must be one of the following: " + PyStr.JoinWith(AllowedAudioFormat, ", ")
    + ". Number to quality mapping: " + mapping
  }

  /** The `ValueError` message of each check. */
  function Message(c: Check): string {
    match c
    case VideoQualityCheck => VideoQualityMessage(VideoMappingText(|VideoFormatToQuality.order|))
    case AudioQualityCheck => AudioQualityMessage(AudioMappingText(|AudioFormatToQuality.order|))
    case EncodingStandardCheck =>
      "Invalid encoding standard. Must be one of the following: " + PyStr.JoinWith(AllowedEncodingStandards, ", ")
      + ". Number to standard mapping: " + DictRepr(EncodingStandardToPreset)
    case CrfCheck =>
      "Invalid CRF standard. Must be one of the following: " + PyStr.JoinWith(AllowedCrfStandards, ", ")
      + ". Number to standard mapping: " + DictRepr(CrfStandardToValue)
    case VideoOnlyCheck => "video_only must be either 'true' or 'false'."
    case UseH265Check => "use_h265 must be either 'true' or 'false'."
    case IndexFileNameCheck => "Invalid indexing file name."
  }

  /** Every configuration key is present (the dict has no other keys, there being no others). */
  predicate HasEveryKey(m: map<ConfigKey, ConfigValue>) {
    IndexFileName in m && PathToIndexFile in m && IndexingFormat in m && PathToDownloadLocation in m &&
    VideoOnly in m && MaxDownloadSize in m && MaxVideoQuality in m && MaxAudioQuality in m &&
    EncodingStandard in m && Crf in m && UseH265 in m
  }

  /** The stored `max_video_quality`: the table's height, or `None` for `-1`. */
  function MappedVideoQuality(x: string): ConfigValue
    requires x in AllowedVideoFormats
  {
    AllowedVideoFormatsAreTableKeys();
    match VideoFormatToQuality.entries[x]
    case None => CNone
    case Some(q) => CStr(q)
  }

  function MappedAudioQuality(x: string): string
    requires x in AllowedAudioFormat
  {
    AllowedAudioFormatAreTableKeys();
    AudioFormatToQuality.entries[x]
  }

  function MappedPreset(x: string): string
    requires x in AllowedEncodingStandards
  {
    AllowedEncodingStandardsAreTableKeys();
    EncodingStandardToPreset.entries[x]
  }

  function MappedCrf(x: string): string
    requires x in AllowedCrfStandards
  {
    AllowedCrfStandardsAreTableKeys();
    CrfStandardToValue.entries[x]
  }

  /**
   * The configuration dict holds the raw options as `import_config` stores
   * them, with `video`, `audio`, `preset` and `crf` the values looked up in
   * the four tables.
   */
  predicate FilledFrom(m: map<ConfigKey, ConfigValue>, o: RawOptions, norm: string -> string,
                       video: ConfigValue, audio: string, preset: string, crf: string)
  {
    HasEveryKey(m) &&
    m[PathToIndexFile] == CNone &&
    m[IndexFileName] == CStr(o.indexFileName + ".txt") &&
    m[IndexingFormat] == CStr(o.indexingFormat) &&
    m[PathToDownloadLocation] ==
      (if o.defaultDownloadLocation == "none" then CNone else CStr(norm(o.defaultDownloadLocation))) &&
    m[VideoOnly] == CBool(o.videoOnly == "true") &&
    m[MaxDownloadSize] == (if o.maxDownloadSize == "-1" then CNone else CStr(o.maxDownloadSize)) &&
    m[MaxVideoQuality] == video &&
    m[MaxAudioQuality] == CStr(audio) &&
    m[EncodingStandard] == CStr(preset) &&
    m[Crf] == CStr(crf) &&
    m[UseH265] == CBool(o.useH265 == "true")
  }

  /** The configuration dict built from options that passed every check. */
  predicate DescribesConfig(m: map<ConfigKey, ConfigValue>, o: RawOptions, norm: string -> string)
    requires forall c: Check :: Passes(c, o)
  {
    assert Passes(VideoQualityCheck, o) && Passes(AudioQualityCheck, o);
    assert Passes(EncodingStandardCheck, o) && Passes(CrfCheck, o);
    FilledFrom(m, o, norm, MappedVideoQuality(o.maxVideoQuality), MappedAudioQuality(o.maxAudioQuality),
               MappedPreset(o.encodingStandard), MappedCrf(o.crf))
  }

  /**
   * The assignments `import_config` makes once every check has passed;
   * `video`, `audio`, `preset` and `crf` are the table entries it stores.
   */
  method FillConfig(downloaderConfig: map<ConfigKey, ConfigValue>, o: RawOptions, norm: string -> string,
                    video: ConfigValue, audio: string, preset: string, crf: string)
    returns (filled: map<ConfigKey, ConfigValue>)
    requires downloaderConfig == EmptyConfig
    ensures FilledFrom(filled, o, norm, video, audio, preset, crf)
  {
    filled := downloaderConfig;
    if o.defaultDownloadLocation != "none" {
      filled := filled[PathToDownloadLocation := CStr(norm(o.defaultDownloadLocation))];
    }
    filled := filled[IndexFileName := CStr(o.indexFileName + ".txt")];
    filled := filled[IndexingFormat := CStr(o.indexingFormat)];
    filled := filled[VideoOnly := CBool(o.videoOnly == "true")];
    if o.maxDownloadSize != "-1" {
      filled := filled[MaxDownloadSize := CStr(o.maxDownloadSize)];
    }
    filled := filled[MaxVideoQuality := video];
    filled := filled[MaxAudioQuality := CStr(audio)];
    filled := filled[EncodingStandard := CStr(preset)];
    filled := filled[Crf := CStr(crf)];
    filled := filled[UseH265 := CBool(o.useH265 == "true")];
  }

  /** A check's verdict as `import_config` raises it: the first failing check and its message. */
  predicate ReportsFirstFailure(e: ConfigError, o: RawOptions) {
    e.InvalidValue? && FirstFailing(e.check, o) && e.message == Message(e.check)
  }

  /** The `ValueError` message `import_config` builds for a failed check. */
  method ValueErrorMessage(c: Check) returns (message: string)
    ensures message == Message(c)
  {
    match c
    case VideoQualityCheck =>
      var mapping := GetVideoFormatMappingStr();
      message := VideoQualityMessage(mapping);
    case AudioQualityCheck =>
      var mapping := GetAudioFormatMappingStr();
      message := AudioQualityMessage(mapping);
    case _ =>
      message := Message(c);
  }

  /**
   * The value checks of `import_config`, in the order it runs them: the
   * first that fails, or `None` when every one passes.
   */
  method FirstFailedCheck(o: RawOptions) returns (failed: Option<Check>)
    ensures failed.None? <==> forall c: Check :: Passes(c, o)
    ensures failed.Some? ==> FirstFailing(failed.value, o)
  {
    if o.maxVideoQuality !in AllowedVideoFormats {
      failed := Some(VideoQualityCheck);
    } else if o.maxAudioQuality !in AllowedAudioFormat {
      failed := Some(AudioQualityCheck);
    } else if o.encodingStandard !in AllowedEncodingStandards {
      failed := Some(EncodingStandardCheck);
    } else if o.crf !in AllowedCrfStandards {
      failed := Some(CrfCheck);
    } else if o.videoOnly != "true" && o.videoOnly != "false" {
      failed := Some(VideoOnlyCheck);
    } else if o.useH265 != "true" && o.useH265 != "false" {
      failed := Some(UseH265Check);
    } else {
      var validName := IsValidIndexingFile(o.indexFileName);
      failed := if validName then None else Some(IndexFileNameCheck);
    }
    if failed.Some? {
      FirstFailingAfter(failed.value, o);
    } else {
      AllChecksPass(o);
    }
  }

  /** The checks of `import_config`: the first that fails raises `ValueError` with that check's message. */
  method CheckOptions(o: RawOptions) returns (failure: Option<ConfigError>)
    ensures failure.None? <==> forall c: Check :: Passes(c, o)
    ensures failure.Some? ==> ReportsFirstFailure(failure.value, o)
  {
    var failed := FirstFailedCheck(o);
    if failed.None? {
      return None;
    }
    var message := ValueErrorMessage(failed.value);
    return Some(InvalidValue(failed.value, message));
  }

  /**
   * `import_config` once the file is parsed: read the options, run the
   * checks, then fill the dict that starts with every key set to `None`.
   */
  method ImportConfig(sections: Sections, norm: string -> string)
    returns (r: Result<map<ConfigKey, ConfigValue>, ConfigError>)
    ensures ReadOptions(sections, norm).Failure? ==> r == Failure(ReadOptions(sections, norm).error)
    ensures ReadOptions(sections, norm).Success? ==>
      var o := ReadOptions(sections, norm).value;
      (r.Success? <==> forall c: Check :: Passes(c, o)) &&
      (r.Failure? ==> ReportsFirstFailure(r.error, o)) &&
      (r.Success? ==> DescribesConfig(r.value, o, norm))
  {
    var downloaderConfig: map<ConfigKey, ConfigValue> := EmptyConfig;
    var read := ReadOptions(sections, norm);
    if read.Failure? {
      return Failure(read.error);
    }
    var o := read.value;
    var failure := CheckOptions(o);
    if failure.Some? {
      return Failure(failure.value);
    }
    assert Passes(VideoQualityCheck, o) && Passes(AudioQualityCheck, o);
    assert Passes(EncodingStandardCheck, o) && Passes(CrfCheck, o);
    downloaderConfig := FillConfig(downloaderConfig, o, norm,
      MappedVideoQuality(o.maxVideoQuality), MappedAudioQuality(o.maxAudioQuality),
      MappedPreset(o.encodingStandard), MappedCrf(o.crf));
    return Success(downloaderConfig);
  }
  // ---------------------------------------------------------------------
  // Properties of import_config

  /** Reading succeeds exactly when the file has sections and every option is present. */
  lemma ReadOptionsNeedsEveryOption(sections: Sections, norm: string -> string)
    ensures ReadOptions(sections, norm).Success? <==>
      |sections| > 0 &&
      "indexing" in sections && "downloading" in sections && "encoding" in sections &&
      "index_file_name" in sections["indexing"] && "indexing_format" in sections["indexing"] &&
      "default_download_location" in sections["indexing"] &&
      "video_only" in sections["downloading"] && "max_download_size" in sections["downloading"] &&
      "max_video_quality" in sections["downloading"] && "max_audio_quality" in sections["downloading"] &&
      "encoding_standard" in sections["encoding"] && "crf" in sections["encoding"] &&
      "use_h265" in sections["encoding"]
  {
  }

  /** An empty file is reported as such, before any option is looked up. */
  lemma EmptyFileHasNoSections(norm: string -> string)
    ensures ReadOptions(map[], norm) == Failure(MissingSectionHeaders)
  {
  }

  /** Whenever some check fails, one of them is the first to fail. */
  lemma SomeCheckFailsFirst(o: RawOptions)
    requires exists c: Check :: !Passes(c, o)
    ensures exists c: Check :: FirstFailing(c, o)
  {
    if !Passes(VideoQualityCheck, o) {
      FirstFailingAfter(VideoQualityCheck, o);
    } else if !Passes(AudioQualityCheck, o) {
      FirstFailingAfter(AudioQualityCheck, o);
    } else if !Passes(EncodingStandardCheck, o) {
      FirstFailingAfter(EncodingStandardCheck, o);
    } else if !Passes(CrfCheck, o) {
      FirstFailingAfter(CrfCheck, o);
    } else if !Passes(VideoOnlyCheck, o) {
      FirstFailingAfter(VideoOnlyCheck, o);
    } else if !Passes(UseH265Check, o) {
      FirstFailingAfter(UseH265Check, o);
    } else {
      var c :| !Passes(c, o);
      assert c == IndexFileNameCheck by { AllButLastPass(c, o); }
      FirstFailingAfter(IndexFileNameCheck, o);
    }
  }

  lemma AllButLastPass(c: Check, o: RawOptions)
    requires Passes(VideoQualityCheck, o) && Passes(AudioQualityCheck, o)
    requires Passes(EncodingStandardCheck, o) && Passes(CrfCheck, o)
    requires Passes(VideoOnlyCheck, o) && Passes(UseH265Check, o)
    requires !Passes(c, o)
    ensures c == IndexFileNameCheck
  {
  }

  /** At most one check is the first to fail, so the error is determined. */
  lemma FirstFailingIsUnique(c: Check, d: Check, o: RawOptions)
    requires FirstFailing(c, o) && FirstFailing(d, o)
    ensures c == d
  {
  }

  /** Only `-1` leaves the video quality unrestricted (`None`). */
  lemma VideoQualityNoneOnlyForMinusOne(x: string)
    requires x in AllowedVideoFormats
    ensures MappedVideoQuality(x) == CNone <==> x == "-1"
  {
  }

  /** The stored video quality for each accepted code. */
  lemma VideoQualityHeights()
    ensures MappedVideoQuality("0") == CStr("144") && MappedVideoQuality("1") == CStr("240")
    ensures MappedVideoQuality("2") == CStr("360") && MappedVideoQuality("3") == CStr("480")
    ensures MappedVideoQuality("4") == CStr("720") && MappedVideoQuality("5") == CStr("1080")
    ensures MappedVideoQuality("6") == CStr("2160") && MappedVideoQuality("-1") == CNone
  {
  }

  /** Stronger encoding standards are slower presets, and lower CRF values mean higher quality. */
  lemma EncodingStandardMappings()
    ensures MappedPreset("0") == "faster" && MappedPreset("1") == "fast" && MappedPreset("2") == "medium"
    ensures MappedPreset("3") == "slow" && MappedPreset("4") == "slower"
    ensures MappedCrf("0") == "32" && MappedCrf("1") == "28" && MappedCrf("2") == "23"
    ensures MappedCrf("3") == "21" && MappedCrf("4") == "18"
  {
  }
}
