# DownloadManager core in Dafny

DownloadManager is a command-line tool. It takes YouTube watch URLs and
canonicalises them. It downloads each video through the `yt_dlp` engine, with
an option map built from the user's quality, codec and size settings. It then
appends one line per downloaded video to an index file, built from a template
such as `[PLATFORM] | [TITLE] | [URL] | [DATE] | [ARTIST_LIST]`. The settings
come from an `.ini` file that `import_config` reads, checks and maps through
fixed lookup tables.

The model is in six modules:

- `Wrappers`: `Option` and `Result`.
- `PyStr`: the Python string built-ins the core relies on.
  - `str.find` for one character, left-to-right non-overlapping `str.replace`, `str.join` and `str.split`.
  - `ReplaceAll` is tied to a split-based formulation: joining with the replacement the pieces of `Split`, none of which holds the pattern.
- `Platform`: `match_url_to_platform`, `YoutubeDownloader.sanitize_url` and `validate_video_part`.
- `Indexing`: record formatting and the `Indexer` class.
  - The class keeps the source's fields: `is_open`, `file`, `path_to_index_file`, `indexing_format`, `chosen_date`.
  - It also keeps a log of the writes made to the index file.
  - The record formatting is proved equal to substituting each token of a segmented template.
- `Downloading`: the `yt_dlp` option map and the counting loop of `download_and_index`.
  - The option map is the `YoutubeDownloader` field `options`, updated in place by the `_add_*` and `_change_*` methods.
  - The constructor is proved to build exactly `ExpectedOptions`.
- `Config`: `DownloadManager/__init__.py`.
  - This covers the lookup tables, `is_valid_indexing_file`, the two mapping strings and `import_config`.
  - `import_config` is modelled after the `.ini` file is parsed: reads, ordered checks, then filling the dict.

Inputs from outside the program are parameters, not modelled behaviour:

- the engine's result for each URL;
- whether opening or writing the index file succeeds;
- today's date;
- `os.path.normpath`, as the function `norm`.

## Model

| member | source | states |
|---|---|---|
| PyStr.ReplaceAll | DownloadManager/downloaders/downloaders.py:55-60 | defines `str.replace` as a left-to-right scan: a match at the front is replaced and the scan resumes after it; its meaning is stated by the lemmas below |
| PyStr.JoinWith | DownloadManager/downloaders/downloaders.py:60 | defines `sep.join(xs)`: the items in order with `sep` between neighbours and none at the ends; its meaning is stated by `SplitJoinRoundTrip` and `ReplaceAllIsJoinOfSplit` |
| PyStr.SplitPiecesAvoidPattern | DownloadManager/downloaders/downloaders.py:55-60 | no piece between the occurrences that the scan cuts out still contains the pattern |
| PyStr.SplitFirstIsPrefix | DownloadManager/downloaders/downloaders.py:55-60 | the first piece of a split is a prefix of the string |
| PyStr.ReplaceAllSkipsClashFree | DownloadManager/downloaders/downloaders.py:55-60 | a prefix on which no occurrence of the pattern can begin, even one running into what follows, passes through replace untouched |
| PyStr.FindChar | DownloadManager/downloaders/downloaders.py:220 | `find('&', start)` gives -1 iff no `&` at or after `start`; otherwise the first such index |
| PyStr.ReplaceAllIsJoinOfSplit | DownloadManager/downloaders/downloaders.py:55-60 | `replace(pat, rep)` equals joining with `rep` the pieces between successive non-overlapping occurrences of `pat` |
| PyStr.SplitJoinRoundTrip | DownloadManager/downloaders/downloaders.py:55-60 | joining the split pieces with the pattern gives the original string back |
| PyStr.ReplaceAllSelf | DownloadManager/downloaders/downloaders.py:55-60 | replacing a pattern by itself changes nothing |
| PyStr.ReplaceAllAbsent | DownloadManager/downloaders/downloaders.py:55-60 | a string that does not contain the pattern is unchanged by replace |
| PyStr.ReplaceAllSkipsPrefix | DownloadManager/downloaders/downloaders.py:55-60 | a prefix without the pattern's first character passes through replace untouched |
| Platform.MatchUrlToPlatform | DownloadManager/downloaders/downloaders.py:255-263 | the result is `Youtube` exactly when the URL is at least 19 characters long and characters 12-18 spell `youtube`; otherwise None |
| Platform.MatchIgnoresHostPrefix | DownloadManager/downloaders/downloaders.py:259-261 | the first 12 characters never influence the platform |
| Platform.ValidateVideoPart | DownloadManager/downloaders/downloaders.py:230-239 | the result is true iff the part has length 11 and every character is a digit, an ASCII letter, `-` or `_` |
| Platform.SanitizeUrl | DownloadManager/downloaders/downloaders.py:217-228 | every accepted result is (scheme + id, id) with a valid id, and the URL starts with the canonical URL |
| Platform.SanitizeUrlAccepts | DownloadManager/downloaders/downloaders.py:217-228 | accepted iff the URL is the scheme, an 11-character valid id, then the end or `&`; the result is the URL cut after the id, and the id |
| Platform.SanitizeUrlFixedPoint | DownloadManager/downloaders/downloaders.py:217-227 | sanitising a sanitised URL gives the same pair |
| Platform.SchemeMatchesYoutube | DownloadManager/downloaders/downloaders.py:244-263 | any URL that starts with the watch-URL scheme is matched to `Youtube` |
| Platform.SanitizedUrlMatchesYoutube | DownloadManager/downloaders/downloaders.py:244-263 | every URL `sanitize_url` accepts, and its canonical form, is matched to `Youtube` |
| Indexing.FormatRecord | DownloadManager/downloaders/downloaders.py:55-60 | the record always ends in a newline |
| Indexing.TokenText | DownloadManager/downloaders/downloaders.py:56-60 | each token starts with `[` and has no other `[` |
| Indexing.TokensDifferAtSecondChar | DownloadManager/downloaders/downloaders.py:56-60 | distinct tokens differ at their second character |
| Indexing.ReplacePassSubstitutes | DownloadManager/downloaders/downloaders.py:55-60 | one replace pass over a segmented template replaces exactly that token's segments |
| Indexing.SubstituteAllIsExpand | DownloadManager/downloaders/downloaders.py:55-60 | the five passes in source order put every field value in place of its token |
| Indexing.FormatRecordExpandsTemplate | DownloadManager/downloaders/downloaders.py:55-60 | The template is literal text and tokens. No token, and no start of one, begins anywhere in its text. Each value is likewise free of the tokens of the passes after its own (values may hold `[`). Then the record is the template with each token replaced by its value, artists joined by `", "`, plus `"\n"`. |
| Indexing.FormatRecordOfPlainTemplate | DownloadManager/downloaders/downloaders.py:55-60 | a template in which no token and no start of one begins is written as-is, with a newline |
| Indexing.TitleHoldingDateTokenBecomesDate | DownloadManager/downloaders/downloaders.py:57-59 | the passes run in sequence: a title that is itself `[DATE]` is replaced by the date in the later pass |
| Indexing.TokenFormedAcrossValueAndText | DownloadManager/downloaders/downloaders.py:57-59 | a token can form across a value and the template text: the title `[DA` before the text `TE]` becomes `[DATE]`, which the date pass replaces |
| Indexing.PipeSeparatedRecord | DownloadManager/downloaders/downloaders.py:55-60 | the pipe-separated template of platform, title, URL, date and artists gives the five values separated by the template's separators, whenever each value is free of the tokens of later passes |
| Indexing.NoBracketIsFree | DownloadManager/downloaders/downloaders.py:55-60 | a value without `[` is free of every token |
| Indexing.BracketsOpeningNoToken | DownloadManager/downloaders/downloaders.py:55-60 | a value whose every `[` is followed by a character that starts no token name is free of every token |
| Indexing.BracketedTitleRecord | DownloadManager/downloaders/downloaders.py:55-60 | the title `Song [Official Video]` is written unchanged into the pipe-separated record |
| Indexing.Indexer.constructor | DownloadManager/downloaders/downloaders.py:12-21 | stores path and format, takes the chosen date or else today, and starts closed with no file |
| Indexing.Indexer.CloseAndConfigure | DownloadManager/downloaders/downloaders.py:23-27 | always ends closed with no file; the new path and format are stored; the old date is kept when none is given |
| Indexing.Indexer.Open | DownloadManager/downloaders/downloaders.py:29-44 | a no-op when open; otherwise `is_open` is set even if opening fails, and the file is present only when opening succeeds |
| Indexing.Indexer.Close | DownloadManager/downloaders/downloaders.py:46-50 | ends closed with no file; idempotent |
| Indexing.Indexer.AppendToIndex | DownloadManager/downloaders/downloaders.py:52-72 | opens when closed; returns true iff there is a file and the write succeeds; exactly the formatted record is appended on success, and nothing otherwise |
| Downloading.PathJoin | DownloadManager/downloaders/downloaders.py:144-145 | `os.path.join`: an absolute second part replaces the first; otherwise the result starts with the first part and ends with the second |
| Downloading.ConvertedOptionsFacts | DownloadManager/downloaders/downloaders.py:104-124 | apart from the format entry (modelled separately), after the conversion setup the fixed entries and the save location are in place. Video conversion args exist iff video-only or a quality is given; `merge_output_format` exists iff not video-only and a quality is given. |
| Downloading.ExpectedOptionsFacts | DownloadManager/downloaders/downloaders.py:116-125 | the format entry exists iff there is a selector or a size limit, and it is the selector followed by the size filter |
| Downloading.CodecFollowsH265 | DownloadManager/downloaders/downloaders.py:154-190 | whenever conversion args are set, the video codec is `libx265` iff `use_h265` |
| Downloading.AudioOnlySetup | DownloadManager/downloaders/downloaders.py:169-177 | without video-only and without a quality, audio is extracted with `FFmpegExtractAudio`. The format is `bestaudio/best`, plus any size filter, and no video args are set. |
| Downloading.FileSizeFilterAppended | DownloadManager/downloaders/downloaders.py:147-148 | a size limit appends `[filesize<=NM]` after whatever format the settings without it give, changing nothing else |
| Downloading.VideoOnlyHasNoSelector | DownloadManager/downloaders/downloaders.py:117-125 | a video-only downloader has a format entry only when a size limit is given, and then it is just the filter |
| Downloading.BaseOptions | DownloadManager/downloaders/downloaders.py:104-115 | defines the option dict every downloader starts from: verbosity, playlist start 1, ffmpeg preferred, no subtitles, errors ignored, 5 fragment retries, 3 retries, flat extraction in playlists, the logger and the one progress hook |
| Downloading.BaseOptionsKept | DownloadManager/downloaders/downloaders.py:104-116 | the retry, logging, hook and save-location entries survive every setup |
| Downloading.ExpectedAgreesOffFormat | DownloadManager/downloaders/downloaders.py:147-148 | the size-limit step touches only the format entry |
| Downloading.ConvertedIgnoresSizeLimit | DownloadManager/downloaders/downloaders.py:104-124 | the size limit plays no part in the options before its own step |
| Downloading.VideoOnlyConverted | DownloadManager/downloaders/downloaders.py:104-118 | the base dict, the save location and the video-only setup give exactly the converted map |
| Downloading.AudioOnlyConverted | DownloadManager/downloaders/downloaders.py:104-121 | the base dict, the save location and the audio extractor give exactly the converted map |
| Downloading.DefaultConverted | DownloadManager/downloaders/downloaders.py:104-123 | the base dict, the save location and the default setup give exactly the converted map |
| Downloading.UnlimitedOptions | DownloadManager/downloaders/downloaders.py:116-124 | without a size limit the options are the converted map plus the audio or height-bounded selector, when there is one |
| Downloading.SizeLimitBuilt | DownloadManager/downloaders/downloaders.py:125 | appending the size filter to the format of the options without a limit gives the options with it |
| Downloading.YoutubeDownloader.constructor | DownloadManager/downloaders/downloaders.py:92-125 | the option map built step by step equals `ExpectedOptions` of the settings |
| Downloading.YoutubeDownloader.AddSaveLocation | DownloadManager/downloaders/downloaders.py:144-145 | sets `outtmpl` to the joined path and nothing else |
| Downloading.YoutubeDownloader.AddMaxFileSizeSetup | DownloadManager/downloaders/downloaders.py:147-148 | appends the size filter to the existing format, or to the empty string |
| Downloading.YoutubeDownloader.AddVideoFormatSetup | DownloadManager/downloaders/downloaders.py:241-243 | appends the height-bounded selector to the existing format, or to the empty string |
| Downloading.YoutubeDownloader.ChangeToDefaultConversionSetup | DownloadManager/downloaders/downloaders.py:154-167 | sets the video convertor, the full ffmpeg args and `mkv` merging |
| Downloading.YoutubeDownloader.ChangeToAudioOnlyConversionSetup | DownloadManager/downloaders/downloaders.py:169-177 | sets the audio extractor and the `bestaudio/best` format |
| Downloading.YoutubeDownloader.ChangeToVideoOnlyConversionSetup | DownloadManager/downloaders/downloaders.py:179-190 | sets the video convertor and the `-na` ffmpeg args |
| Downloading.YoutubeDownloader.DownloadAndIndex | DownloadManager/downloaders/downloaders.py:195-215 | the loop as intended (see Findings): an item is a download iff the engine gave its metadata, so a `DownloadError` and a `None` are both skipped. The counters are the number of downloads and of successful index appends; the requests are one per download when an indexer exists; index count <= download count <= number of URLs |
| Downloading.YoutubeDownloader.DownloadAndIndexAsWritten | DownloadManager/downloaders/downloaders.py:195-215 | the loop as written: when no item gives `None`, it finishes with the same counters as the intended loop; otherwise an exception escapes at the first `None`, after the index requests of the items before it |
| Downloading.FirstNoInfo | DownloadManager/downloaders/downloaders.py:204-205 | the first item whose engine result is `None`: no earlier item gives `None`, and it does unless it is the end of the list |
| Downloading.NoInfoEndsLoop | DownloadManager/downloaders/downloaders.py:205 | for `[None, metadata]` the loop as written stops at item 0 with no index request, where the intended loop counts one download and one index append |
| Downloading.AsWrittenFinishesWithoutNoInfo | DownloadManager/downloaders/downloaders.py:204-205 | without a `None` result the loop as written reaches the end of the list |
| Downloading.CountsOrdered | DownloadManager/downloaders/downloaders.py:206-210 | index count <= download count <= number of items |
| Downloading.CountersStep | DownloadManager/downloaders/downloaders.py:200-210 | each item raises each counter by at most one; the index count rises iff there is an indexer, the download succeeded and the append returned true |
| Downloading.NoIndexerNoIndexing | DownloadManager/downloaders/downloaders.py:210 | with no indexer nothing is indexed and no append is attempted |
| Downloading.OneRequestPerDownload | DownloadManager/downloaders/downloaders.py:206-210 | with an indexer, exactly one append is attempted per download |
| Config.AllowedVideoFormatsAreTableKeys | DownloadManager/__init__.py:7-17 | the allowed video codes are exactly the table's keys, and the table is well formed |
| Config.AllowedAudioFormatAreTableKeys | DownloadManager/__init__.py:18-24 | the allowed audio codes are exactly the table's keys |
| Config.AllowedEncodingStandardsAreTableKeys | DownloadManager/__init__.py:25-32 | the allowed encoding codes are exactly the table's keys |
| Config.AllowedCrfStandardsAreTableKeys | DownloadManager/__init__.py:33-40 | the allowed crf codes are exactly the table's keys |
| Config.IsValidIndexingFile | DownloadManager/__init__.py:68-72 | false iff the name contains one of the nine forbidden characters: slash, backslash, colon, star, question mark, double quote, both angle brackets and the vertical bar |
| Config.VideoMappingTextValue | DownloadManager/__init__.py:75-79 | the video mapping text is `-1: None0: 1441: 240…6: 2160` |
| Config.AudioMappingTextValue | DownloadManager/__init__.py:82-86 | the audio mapping text is `0: 641: 962: 1283: 160` |
| Config.GetVideoFormatMappingStr | DownloadManager/__init__.py:75-79 | the loop builds the concatenation of `key: value` over the whole table in order, the text whose value `VideoMappingTextValue` states |
| Config.GetAudioFormatMappingStr | DownloadManager/__init__.py:82-86 | the loop builds the concatenation of `key: value` over the whole table in order, the text whose value `AudioMappingTextValue` states |
| Config.LookupOption | DownloadManager/__init__.py:103-112 | succeeds iff the section and option exist, with the stored value |
| Config.ReadOptions | DownloadManager/__init__.py:97-112 | defines the reads: no sections fails first, then the ten options are looked up in source order and the first missing one is the error; the index file name is normalised |
| Config.ReadOptionsNeedsEveryOption | DownloadManager/__init__.py:97-112 | reading succeeds iff the file has sections and all ten options are present in their sections |
| Config.EmptyFileHasNoSections | DownloadManager/__init__.py:97-102 | a file without sections fails with the missing-section-headers error |
| Config.Passes | DownloadManager/__init__.py:113-124 | defines each check: quality codes, encoding and crf codes in their allowed lists, the two flags `true` or `false`, and a valid index file name |
| Config.Message | DownloadManager/__init__.py:113-125 | defines each check's error text, listing the allowed codes joined by `", "` and the mapping text or table |
| Config.DictRepr | DownloadManager/__init__.py:117-120 | defines the Python repr of a string-valued table: `{'k': 'v', ...}` in insertion order |
| Config.FirstFailingAfter | DownloadManager/__init__.py:113-125 | a check that fails after all earlier ones passed is the first failing check |
| Config.AllChecksPass | DownloadManager/__init__.py:113-125 | passing the seven checks in turn means every check passes |
| Config.SomeCheckFailsFirst | DownloadManager/__init__.py:113-125 | whenever some check fails, a first failing check exists |
| Config.FirstFailingIsUnique | DownloadManager/__init__.py:113-125 | the first failing check is unique, so the error raised is determined |
| Config.FirstFailedCheck | DownloadManager/__init__.py:113-124 | `None` iff every check passes; otherwise the first check to fail, with every earlier check passed |
| Config.ValueErrorMessage | DownloadManager/__init__.py:113-124 | the `ValueError` text built for a failed check is that check's message; the two quality messages are built from the mapping strings the loops produce |
| Config.CheckOptions | DownloadManager/__init__.py:113-125 | no error iff every check passes; otherwise the error names the first check to fail, in the order video, audio, encoding, crf, video_only, use_h265, file name, and carries that check's message |
| Config.FillConfig | DownloadManager/__init__.py:126-137 | Every key is present. The index path stays None and the file name gets `.txt` appended. Location and size stay None for `none` and `-1`, and are stored otherwise. The table entries are stored; the two flags become `== 'true'`. |
| Config.ImportConfig | DownloadManager/__init__.py:89-138 | A read error is returned unchanged. After a successful read: success iff every check passes; on failure, the first failing check and its message; on success, the dict the source builds from the options. |
| Config.MappedVideoQuality | DownloadManager/__init__.py:133 | defines the stored video quality: the table's height for the code, or None |
| Config.MappedAudioQuality | DownloadManager/__init__.py:134 | defines the stored audio quality: the table's bitrate for the code |
| Config.MappedPreset | DownloadManager/__init__.py:135 | defines the stored preset: the table's preset for the code |
| Config.MappedCrf | DownloadManager/__init__.py:136 | defines the stored crf: the table's value for the code |
| Config.VideoQualityNoneOnlyForMinusOne | DownloadManager/__init__.py:7-17 | an accepted video code maps to None iff it is `-1` |
| Config.VideoQualityHeights | DownloadManager/__init__.py:8-17 | codes `0`…`6` map to `144`, `240`, `360`, `480`, `720`, `1080`, `2160` |
| Config.EncodingStandardMappings | DownloadManager/__init__.py:26-40 | encoding codes `0`…`4` map to `faster`…`slower`, and crf codes to `32`, `28`, `23`, `21`, `18` |

## Left out

- `yt_dlp` is a foreign library. What it returns for each URL is an input to the model.
  - The input is a raised `DownloadError`, a returned `None`, or the title and uploader.
  - What `append_to_index` returns for that item is also an input.
  - The engine's options hold the logger and the progress hook, which are opaque values.
- The console messages of `MessageHandler` are left out, and so is the text printed on exit.
  - One side effect of this: the missing-section-headers message names the sections `course_saving, authentication`, not this program's `indexing, downloading, encoding`. That text is not modelled.
- Real file handling is left out: the index file is a log of writes, and whether opening or writing succeeds is a parameter.
  - Indexing.Indexer.AppendToIndex does not raise the `AttributeError` that the source raises after a failed open, when `file` is `None`. It returns false and writes nothing.
  - That `AttributeError` escapes `download_and_index`, which catches only `DownloadError`. The model does not stop the loop.
- Indexing.Indexer.Close: the source also raises `AttributeError` when closing after a failed open. The model ends closed with no file.
- Indexing.Indexer.CloseAndConfigure: it calls `close` first, so the same `AttributeError` escapes it after a failed open. The model ends closed and reconfigured.
- A write that fails part-way is not modelled: a failed write appends nothing.
- `datetime.date.today()` is the constructor's `today` parameter.
- `os.path.normpath` stands as the uninterpreted function `norm`.
- Downloading.PathJoin models the POSIX two-argument `os.path.join` only.
- Config.ImportConfig starts from the parsed sections and does not parse the `.ini` text.
  - It does not model configparser's `DEFAULT`-section fallback or case-insensitive option names.
  - It does not model configparser's `BasicInterpolation`. The source reads values with `config[section][option]`, which interpolates them. A lone `%` (as in `100% [TITLE]`) raises `InterpolationSyntaxError`, which ends in exit, and `%(name)s` is expanded. Config.LookupOption returns the stored text unchanged.
  - `sys.exit(1)` becomes an error result.
  - The `len(config) == 0` test is left out. A `ConfigParser` always holds the `DEFAULT` section, so that test can never be true.
  - A missing section or option becomes `MissingKey` with its name.
- Downloading.Downloaded: a metadata dict without `title` or `uploader` would raise `KeyError`. Metadata is modelled as always having both.
- `create_downloaders` is left out: it only wraps the `YoutubeDownloader` constructor in a one-entry dict.
- `get_sample_url`, `__hash__`/`__eq__` and the abstract `BaseDownloader` declarations are left out.
- The yt_dlp option keys are an enumeration; `OptionKey.Name()` gives the engine's key strings.
- `__main__.py` is not part of this model. It is interactive console input, directory creation and printing (and it calls a `get_sample_urls` that does not exist).
- `message_handler.py` is not part of this model. It only prints in colour.
- Downloading.YoutubeDownloader.DownloadAndIndex models the intended handling of a `None` from the engine; the code as written is modelled beside it (see Findings).
- The code has no Twitch downloader, and `sanitize_url` returns a pair (the canonical URL and the id) with no playlist flag; the model follows the code.

## Findings

| source | as written | input that shows it | evidently intended | confidence | as-written member | corrected member |
|---|---|---|---|---|---|---|
| DownloadManager/downloaders/downloaders.py:205 | `raise yt_dlp.DownloadError` raises the class itself. Its constructor needs a message, so the raise becomes a `TypeError`, which the handler at line 213 does not catch; the loop ends at the first item for which `extract_info` returns `None` (the usual failure, since the options set `ignoreerrors`) | URL list whose engine results are `[None, metadata]`: no counts are returned and the second item is never downloaded | a `None` is skipped like a `DownloadError`, and the loop goes on to the next item | not executed; rests on the `DownloadError(msg, exc_info=None)` signature of yt_dlp, which is not part of this model | Downloading.YoutubeDownloader.DownloadAndIndexAsWritten, Downloading.NoInfoEndsLoop | Downloading.YoutubeDownloader.DownloadAndIndex |
