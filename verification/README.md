# YouTube downloader core in Dafny

This project models the bookkeeping of `downloader.py`, a command-line tool
that downloads videos and audio through an extraction engine (yt-dlp). The
media work is done by that engine, by ffmpeg and by tag libraries, and none of it
is modelled. What is modelled is the logic that decides what gets
downloaded, under which name, what is skipped because it is already on disk,
which tags are written, and what the summary records:

- `selection.dfy`: `parse_selection`, the parser for answers such as
  `1,3-4,10`. It is a loop that fills a set and is proved against a
  specification function. It is also proved to invert the `playlist_items`
  string built from its result.
- `playlist.dfy`:
  - the entries listed for a playlist (`fetch_playlist_entries`);
  - the plan `main` builds from the selection: selected positions,
    `playlist_items`, watch URLs, track sequence and album.
- `urls.dfy`: `is_playlist`, `guess_is_music`, the watch URL of an entry, and
  the video id read back from a URL with `v=([\w-]+)`.
- `paths.dfy`:
  - `sanitize`;
  - POSIX `os.path.join`, `basename` and `dirname`;
  - the output template handed to the engine.
- `resume.dfy`:
  - the module-level `resume_check`, which searches the output tree for each
    entry's expected file;
  - the `resume_check` redefined inside `main`, which looks only in the
    output folder and also handles plain URL lists;
  - the resume step of `main` as written and as intended.
- `tags.dfy`: the tag dictionary of `write_tags` with its fallback chains,
  and the filter that writes only truthy values, only for mp3 and flac.
- `pipeline.dfy`:
  - `download_task`, the per-URL retry loop that appends to the caller's
    summary list and collects failed URLs;
  - one attempt: path resolution, audio classification, thumbnail choice,
    track index, tagging and description;
  - the engine options `main` builds.
- `pytext.dfy` and `pyvalues.dfy` spell out the Python semantics the code
  relies on. The first covers `strip`, `split`, `join`, `in`, `int()`,
  `isdigit`, `str` of an integer and `:02d`. The second covers
  metadata-dictionary values, truthiness, `or`, `dict.get` and slicing.
  `wrappers.dfy` holds `Option` and `Result`.

The world outside the program is an input to the model:

- The file system is a sequence of existing paths, in the order a directory
  listing yields them.
- The extraction engine, file sizes and the tag and description writers are
  an oracle, `world(i, r)`, giving what attempt `r` of the URL at position
  `i` meets.
- User answers to prompts are boolean parameters.

## Model

| member | source | states |
|---|---|---|
| PyText.Strip | downloader.py:115 | neither end of the result of `strip()` is whitespace, and an input with no whitespace at its ends is returned unchanged |
| PyText.StripLeftSuffix | downloader.py:115 | the left strip keeps a suffix of the text and drops only whitespace |
| PyText.StripEmptyIff | downloader.py:115 | `strip()` gives the empty string iff the text is all whitespace |
| PyText.Split | downloader.py:114-118 | `split(sep)` yields at least one piece, no piece holds the separator, and joining the pieces with the separator gives the input back |
| PyText.SplitJoin | downloader.py:629 | splitting a join of separator-free pieces gives the pieces back |
| PyText.ContainsIff | downloader.py:102-103 | `sub in s` holds iff `sub` occurs at some position of `s` |
| PyText.NatToStringValue | downloader.py:629 | `str(n)` of a natural number is a digit string denoting n |
| PyText.Pad2Value | downloader.py:177 | `f"{n:02d}"` still denotes n and has no extra leading zero: only a two-digit form starts with `0` (and every number below 100 has two digits) |
| PyText.ParseIntOfDigits | downloader.py:122-123 | `int()` of a string that `isdigit()` accepts is the number its digits denote |
| PyText.ParseInt | downloader.py:118 | `int()` gives a number only for text whose stripped form starts with a digit or a sign, and a negative number only after a `-` |
| PyText.ParseIntRejects | downloader.py:118-121 | `int()` raises on text that is blank or, once stripped, starts with neither a sign nor a digit |
| PyText.DigitsStrip | downloader.py:115-123 | a digit string is unchanged by `strip()` and holds no sign, comma, underscore or dash |
| PyValues.Or | downloader.py:245 | `a or b` is `a` when `a` is truthy and `b` otherwise; it is truthy iff either operand is |
| PyValues.Get | downloader.py:244 | `info.get(key, default)` is `info[key]` when the key is present and the default when it is absent |
| PyValues.TakeFour | downloader.py:247 | `v[:4]` of a string or list is its prefix of length 4, or the whole value when it is shorter; slicing a value that is neither raises |
| Paths.Sanitize | downloader.py:156-157 | the result has the input's length; each of `/ \ : * ? " < > \|` becomes `_`, and every other character is kept in place |
| Paths.SanitizeIsSafe | downloader.py:156-157 | a sanitized string holds no forbidden character, in particular no `/` |
| Paths.SanitizeFixes | downloader.py:156-157 | sanitizing leaves a string unchanged iff it holds no forbidden character |
| Paths.SanitizeIdempotent | downloader.py:156-157 | sanitizing twice equals sanitizing once |
| Paths.JoinBasename | downloader.py:717 | joining a non-empty path to any folder keeps that path's base name |
| Paths.JoinDirname | downloader.py:184 | the directory part of a single name joined to a folder without a trailing `/` is that folder |
| Paths.Basename | downloader.py:179 | the base name is the `/`-free suffix that follows the last `/` of the path, or the whole path when it has none |
| Paths.OutputTemplate | downloader.py:637-649 | the output template is the output folder followed by the uploader, the sanitized album (audio playlist with an album only) and the file name; splitting the part below the folder at `/` gives exactly those segments back, and the template ends in `.%(ext)s` |
| Urls.IsPlaylist | downloader.py:106-109 | a URL is a playlist iff one of `list=`, `/playlist?`, `/playlist/` occurs in it and `watch?` occurs nowhere |
| Urls.WatchInPlaylistIsNotPlaylist | downloader.py:106-109 | a watch URL that also names a list is not a playlist |
| Urls.GuessIsMusic | downloader.py:102-103 | a URL is music iff `music.youtube.com` occurs somewhere in it |
| Urls.MusicLinkIsMusic | downloader.py:102-103 | every `music.youtube.com` watch link is recognised as music |
| Urls.IdRun | downloader.py:729 | the captured group is the longest prefix made of `[\w-]` characters |
| Urls.VideoId | downloader.py:729-731 | a found id is a non-empty run of `[\w-]` characters |
| Urls.VideoIdLeftmost | downloader.py:729-731 | the search finds nothing iff no position has `v=` followed by an id character; otherwise it captures the whole run at the leftmost such position |
| Urls.WatchUrlVideoId | downloader.py:729-731 | the id read back from the watch URL built for a non-empty `[\w-]` id is that id |
| Selection.Range | downloader.py:119 | `range(start, end + 1)` holds exactly the integers from start to end |
| Selection.AddToken | downloader.py:115-123 | one loop iteration adds exactly the indices of its stripped token to the set |
| Selection.ParseSelection | downloader.py:112-124 | the result is the specification list; it is strictly increasing, lies within 1..total, and holds exactly the collected indices that lie in 1..total |
| Selection.AscendingSorted | downloader.py:124 | the ascending listing of a set up to n is strictly increasing, within 1..n, and holds exactly the set's members in 1..n |
| Selection.EmptySelection | downloader.py:112-124 | an empty selection string selects nothing |
| Selection.LoneDash | downloader.py:116-121 | `-` selects nothing |
| Selection.NonNumericRange | downloader.py:116-121 | `a-b` selects nothing |
| Selection.TwoDashes | downloader.py:116-121 | `1-2-3` selects nothing |
| Selection.ReversedRange | downloader.py:116-119 | `5-2` selects nothing |
| Selection.SignedSingle | downloader.py:122-123 | a signed single token such as `+5` selects nothing: `isdigit()` rejects it |
| Selection.DigitsToken | downloader.py:122-123 | a token made of digits selects the number it denotes |
| Selection.DigitsRangeToken | downloader.py:116-119 | two digit strings around a dash select the range between their values |
| Selection.ExampleSelection | downloader.py:112-124 | `1,3-4,10` with five entries gives `[1, 3, 4]` |
| Selection.Decimals | downloader.py:629 | `[str(i) for i in xs]` maps each number to its decimal form, position by position |
| Selection.DecimalsIndices | downloader.py:629 | reading back the decimal forms of positive numbers collects exactly those numbers |
| Selection.ItemsStringRoundTrip | downloader.py:628-629 | the `playlist_items` string built from any strictly increasing list within 1..total parses back to that list |
| Selection.AscendingOfSorted | downloader.py:124 | a strictly increasing list within 1..n is the ascending listing of its own elements |
| Playlist.Untitled | downloader.py:140 | the placeholder title is never empty |
| Playlist.FetchEntries | downloader.py:137-142 | an error of `extract_info` is passed on; no `entries` gives an empty list; otherwise the entries are numbered from the listing |
| Playlist.NumberEntries | downloader.py:139-141 | the k-th item gets index k+1 and keeps its id, and its title is kept unless it is missing or empty, when it becomes `Untitled k+1`; every title is non-empty |
| Playlist.Span | downloader.py:631 | `list(range(a, b + 1))` has b-a+1 items and item k is a+k |
| Playlist.SpanSorted | downloader.py:631 | the list of all entry numbers is strictly increasing and within 1..n |
| Playlist.PlanPlaylist | downloader.py:627-636 | an empty playlist raises `IndexError` and nothing else does; a non-blank selection is parsed and passed on as a `playlist_items` string that parses back to it, while a blank one selects every entry and sets no items; the indices are strictly increasing and in range; the k-th URL is the watch URL of the entry numbered by the k-th index; the track sequence is 1..number of URLs; the album is `None` |
| Playlist.CollectUrls | downloader.py:632-634 | one watch URL per selected index, in selection order, for the entry at that position |
| Playlist.PlannedUrlIds | downloader.py:634 | the video id read back from each planned URL is the selected entry's id, for ids made of `[\w-]` characters |
| Resume.LookUp | downloader.py:176-183 | the lookup of one entry gives its first match: an existing file below the folder whose base name is the entry's expected name |
| Resume.FindBelow | downloader.py:179 | the recursive glob returns exactly the existing files below the folder whose base name is the expected name |
| Resume.ResumeCheck | downloader.py:160-191 | outside the playlist branch the input comes back unchanged and nothing is skipped; in it the pending list is the watch URLs of the entries without a match, in entry order, and the skipped list is their first matches; the per-directory counts are the tally of the skipped files and sum to their number |
| Resume.Pending | downloader.py:174-187 | every entry with no match below the folder has its watch URL pending |
| Resume.Found | downloader.py:174-183 | every skipped path is an existing file below the output folder |
| Resume.Tally | downloader.py:184-185 | every skipped file's directory is counted, and the counts add up to the number of skipped files |
| Resume.ResumePartition | downloader.py:174-187 | every entry is either pending or skipped: the counts add up, a pending URL is the watch URL of an entry with no match, and the skipped paths are exactly the entries' first matches |
| Resume.FoundAreFiles | downloader.py:179-183 | every skipped path is an existing file below the folder, named as some entry expects |
| Resume.NothingOnDisk | downloader.py:174-187 | with no file on disk nothing is skipped, and every entry is pending, in order |
| Resume.MapSumIncrement | downloader.py:185 | `counts[d] = counts.get(d, 0) + 1` raises the sum of the counts by one |
| Resume.BasenameOfJoin | downloader.py:179 | a name without `/` joined to a folder is its own base name |
| Resume.FirstOfTwoPresent | downloader.py:174-187 | of two entries with different names, only the first of which is on disk, the second is pending and the first's file is skipped |
| Resume.TwoEntryExample | downloader.py:174-187 | entries `A` and `B` with only `01 - A.mp3` in the folder: the URL of `B` is pending and that file is skipped |
| Resume.FindInFolder | downloader.py:734 | the glob `*{vid}*.{fmt}` returns exactly the existing files directly in the folder whose name matches the pattern |
| Resume.ResumeCheckInMain | downloader.py:702-742 | in the playlist branch an entry is skipped iff its file exists directly in the folder, otherwise its watch URL is pending; for a URL list a URL is skipped, together with all its matching files, iff an id can be read from it and some file matches it, otherwise it is pending |
| Resume.GlobMatchIff | downloader.py:734 | a name matches iff it does not start with a dot, ends with `.fmt`, and the id occurs in it ending before that suffix |
| Resume.NoIdStaysPending | downloader.py:728-741 | a URL from which no id can be read is always pending |
| Resume.FlatSkippedAreMatches | downloader.py:733-739 | every skipped path is an existing file directly in the folder whose name matches the id of one of the URLs |
| Resume.FolderPending | downloader.py:713-723 | every entry whose file is missing from the folder has its watch URL pending, and there are no more pending URLs than entries |
| Resume.FolderSkipped | downloader.py:713-719 | every skipped path is an existing file, and every entry whose file exists has that path skipped |
| Resume.FlatPending | downloader.py:726-741 | a URL is pending iff it is an input URL with no matching file, and there are no more pending URLs than input URLs |
| Resume.FolderPartition | downloader.py:713-723 | in the playlist branch every entry is either pending or skipped |
| Resume.ExpectedNameShape | downloader.py:714-716 | an expected file name is a single path segment starting with a digit, for a format without `/` |
| Resume.FolderSkipIsFound | downloader.py:717-718 | an entry the check inside `main` skips is also skipped by the module-level check |
| Resume.FolderCheckMissesSubdirectories | downloader.py:710-718 | a path below the output folder that runs through a subdirectory, as every path built from the output template does, is never the path the check inside `main` looks for |
| Resume.MainResumeAsWritten | downloader.py:744-755 | when the check is offered and accepted, unpacking the inner check's pair into three names raises; otherwise the URLs to download are unchanged |
| Resume.MainResume | downloader.py:744-770 | the corrected step: a non-empty playlist is checked by the recursive module-level lookup (its pending list, found files and per-directory tally); a URL list keeps the flat check, and its skipped files are tallied per directory; the tally sums to the number of skipped files, and the program ends when files were found and the user declines to go on |
| Resume.LookupFindsSubdirectories | downloader.py:174-183 | the recursive lookup of the module-level check finds an entry's file in any directory below the output folder, such as the uploader directory the output template starts with |
| Tags.DateTag | downloader.py:247 | the date is always a string when it can be computed |
| Tags.TagDict | downloader.py:242-250 | the dictionary exists iff the date can be computed, and holds title, artist, album, date and genre, plus tracknumber exactly when the index is truthy |
| Tags.Written | downloader.py:251-265 | for mp3 and flac exactly the truthy entries reach the file, unchanged; for other formats nothing does |
| Tags.WriteTags | downloader.py:242-265 | a date error or a save error of the tag library is raised; otherwise the file receives exactly the written tags |
| Tags.CopyTruthy | downloader.py:256-258 | the copy loop keeps exactly the truthy entries, unchanged |
| Tags.TrackNumberIff | downloader.py:249-250 | the track number is written iff the format is tagged and the index is truthy, and it is then the index in decimal |
| Tags.AlbumFallback | downloader.py:246 | the album tag is the album argument, else the engine's album, else its playlist title; it is written iff one of them is truthy |
| Tags.ArtistFallback | downloader.py:245 | the artist tag is the uploader, else the channel; it is written iff one of them is truthy |
| Tags.DateFallback | downloader.py:247 | the date is the release year when that is truthy; otherwise the first four characters of a string upload date, empty when there is no upload date; an upload date that is neither a string nor a list raises |
| Tags.EmptyGenreNotWritten | downloader.py:248 | an empty, `None` or missing genre is never written |
| Tags.WrittenNames | downloader.py:243-250 | only the six tag names are ever written |
| Pipeline.BuildOptions | downloader.py:650-697 | the engine gets the template, unchanged, exactly in video mode or for mp3, m4a and flac, and `playlist_items`, unchanged, exactly in video mode or for another audio format |
| Pipeline.OptionsReachEngine | downloader.py:313-323 | with the options `main` builds and no `filepath` from the engine, the recorded path is the template when the options carry one and `title.fmt` otherwise |
| Pipeline.Downloaded | downloader.py:311-312 | without `requested_downloads` the info is used as returned; with it, the lookup succeeds iff it is a non-empty list whose first item is a dictionary, and gives that dictionary |
| Pipeline.FinalPath | downloader.py:313-323 | a string `filepath` is the path; otherwise the `outtmpl` option as it stands, once the default `title.fmt` could be built |
| Pipeline.TrackIndex | downloader.py:355 | no track sequence gives no index; otherwise the lookup succeeds iff the position is within the sequence, and gives its entry |
| Pipeline.SizeCell | downloader.py:364 | the size cell holds the size exactly when it is positive, and is empty otherwise |
| Pipeline.AudioIgnoresCase | downloader.py:326-331 | the audio classification sees the path only through its lower-case form |
| Pipeline.ThumbnailChoice | downloader.py:333-336 | the thumbnail is a truthy `thumbnail`, else the `url` of the last entry of a truthy `thumbnails` list (raising when it has none), else none |
| Pipeline.RunAttempt | downloader.py:308-358 | an engine error is the attempt's error; an attempt completes only when the engine returned; a size is kept only for a non-empty path and is that file's size; a file is recorded as audio only when the classification calls its path audio, and an audio file completes only when its track number could be looked up |
| Pipeline.AttemptOutcome | downloader.py:308-358 | an engine, lookup or path error leaves the row's variables blank and raises; a resolved path is kept with its size when non-empty, the type is audio iff the classification says so, a video file completes, and an audio file completes only when the thumbnail choice, the track lookup and the tagging do not raise |
| Pipeline.SummaryTable.Append | downloader.py:359 | `summary.append(row)` adds the row at the end |
| Pipeline.DownloadTask | downloader.py:275-387 | the summary gains exactly the rows of the URLs, in order, and the failed list is exactly the failed URLs, in order |
| Pipeline.RetryUrl | downloader.py:299-387 | the retry loop appends the URL's single row when at least one attempt is allowed, nothing otherwise, and reports whether its attempts ran out |
| Pipeline.AttemptBounds | downloader.py:300-387 | a URL is attempted at least once and at most `max_retries` times; it fails iff its last attempt raised, and then all attempts were made; its row comes from the last attempt's variables alone |
| Pipeline.AlwaysFailing | downloader.py:369-384 | a URL every attempt of which raises is attempted exactly `max_retries` times and fails |
| Pipeline.FirstSucceeds | downloader.py:300-359 | a URL whose first attempt completes is attempted once and gets a `Success` row built from that attempt |
| Pipeline.SameEndings | downloader.py:300-387 | the retries of a URL depend only on how its own attempts end |
| Pipeline.StatusShape | downloader.py:359-384 | a URL's status is `Success` iff it did not fail, and `FAIL: ` followed by the error otherwise |
| Pipeline.FailOnceThenSucceed | downloader.py:300-387 | a URL that fails once and then completes makes two attempts and gets a `Success` row |
| Pipeline.Isolation | downloader.py:298-387 | what happens to a URL depends only on what its own attempts meet, not on the other URLs; this follows from the loop keeping no other state between URLs |
| Pipeline.RowsPerUrl | downloader.py:298-387 | with `max_retries >= 1` there is exactly one row per URL, in input order; with `max_retries <= 0` there are no rows and no failures |
| Pipeline.FailedMatchesRows | downloader.py:359-384 | every status is `Success` or `FAIL: ` and the error, and the failed list is exactly the URLs of the `FAIL` rows, in order |
| Pipeline.EngineFailureRow | downloader.py:300-310 | when the last allowed attempt's engine call raises, a failed URL's row holds the URL itself, `Video`, `FAIL: ` with the engine's error, and an empty size cell; an engine raising on every attempt makes the URL fail |
| Pipeline.TagErrorRaises | downloader.py:356 | an error writing an audio file's tags is not caught: the attempt raises it |
| Pipeline.UpperCaseExtension | downloader.py:326-331 | the audio classification ignores case: `.MP3` is audio in video mode too |
| Pipeline.ThreeUrlScenario | downloader.py:298-387 | three URLs with two attempts each, the first and last completing at once and the middle one raising both times: rows `Success`, `FAIL: ...`, `Success`, and only the middle URL failed |
| Pipeline.PlainAudioCompletes | downloader.py:308-358 | an audio download reported at a path completes when there is no thumbnail, no track sequence, no date and no tag or description error |

## Left out

- The media work: downloading, conversion, the HTTP thumbnail fetch, image re-encoding and cover embedding. These are calls into the engine, ffmpeg, PIL and mutagen. The cover step catches its own errors and changes no variable of the loop, so the model has no cover step at all.
- `natural_size`: the size column is kept as the byte count. Its float formatting is not modelled.
- Progress bars, console messages, `print` calls, prompts and tables; configuration files; the clipboard; the update check; `validate_proxy`; `open_folder`; argument parsing.
- `download_video.py`, `converter.py` and `threading_downloading.py` are not part of this model. They are thread or subprocess wrappers around the engine and ffmpeg.
- `embed_cover_audiofile` (downloader.py:213-240) writes the cover in-process through mutagen. It is part of the cover step, which the first line leaves out.
- `save_yt_description` is a file write. The model keeps only its condition (description saving is on and the description is truthy) and the error the write may raise.
- Unicode text:
  - `isdigit` and `int()` are modelled for ASCII digits only;
  - `lower` is modelled for ASCII letters only;
  - `\w` is modelled as `[A-Za-z0-9_]`.
- PyText.ParseInt: the limit on the number of digits `int()` accepts (4300 by default since Python 3.11) is not modelled; digit strings of any length are parsed. In Python a longer token raises `ValueError`. In a range token (downloader.py:118) the bare `except` would skip it. A single token at 123 is outside any `try`, so `parse_selection` would crash, whereas the model adds its value. `ParseIntOfDigits` has the same gap.
- Glob subtleties:
  - glob metacharacters (`[`, `]`, `*`, `?`) in folder names or titles are taken literally. `sanitize` keeps `[` and `]`, so for a title such as "Song [Official Video]" the pattern at downloader.py:179 really holds a character class, and the file on disk is not found; the model finds it;
  - the recursive `**` skipping hidden directories is not modelled;
  - the order of glob results is taken as the order of the file list.
- `os.path.abspath` normalisation of the output folder: the folder is taken as given. `os.path.exists` is taken to be true exactly for the listed paths, directories included.
- Pipeline.FinalPath: a `filepath` that is neither a string nor `None` is treated like `None`, and an `outtmpl` option that is a dictionary (which `main` never builds) is not modelled.
- Pipeline.Downloaded: when `requested_downloads[0]` is not a dictionary, the model raises with a fixed message of its own rather than the Python message.
- Pipeline.Thumbnail: a `thumbnails` value that is truthy but not a list of dictionaries raises with a fixed message of its own rather than the Python message.
- PyValues.ToStr: `str()` of a list or dictionary is a placeholder. The date tag reaches it for a truthy list or dictionary `release_year` and for a list-valued upload date.
- Playlist.FetchEntries: titles and ids are taken to be strings or missing.
- Playlist.PlanPlaylist: the album is always `None`, as written. The entries carry no `playlist_title`, so `entries[0].get("playlist_title")` is always `None`.
- Pipeline.TrackIndex: after the resume check has dropped URLs, position i still reads the i-th track number of the full selection. The numbers then no longer match the files; this is modelled as written.
- Resume.MainResume: the playlist branch checks every entry of the playlist, not only the selected ones, as written at line 750.
- `write_tags` (downloader.py:356) runs outside the `try` that guards the cover step, so a tagging error makes the attempt raise and the URL be retried. The model follows the code (Pipeline.TagErrorRaises).
- Pipeline.DownloadTask: a `KeyboardInterrupt` during the download is not an `Exception`, so the handler of each attempt does not catch it. It reaches the handler in `main` (`except KeyboardInterrupt` at downloader.py:803), whose `sys.exit(0)` at 805 also skips the summary table (806-813). The model has no interruption, and DownloadTask always finishes.
- When the engine reports no `filepath`, the path recorded (downloader.py:316-323) is the `outtmpl` string itself, with its `%(...)s` fields not filled in. The model follows the code (Pipeline.FinalPath).

## Findings

| source | as written | input that shows it | evidently intended | confidence | as-written member | corrected member |
|---|---|---|---|---|---|---|
| downloader.py:742 | the inner `resume_check` returns a pair `(to_download, skipped)`, but lines 749 and 753 unpack three values | any playlist or URL list read from a file, with the resume check accepted | check a playlist with the module-level `resume_check` (lines 160-191), which searches below the folder and returns the three values; keep the flat check for a URL list and count its skipped files per directory for the summary printed at lines 761-763 | high (not executed) | Resume.MainResumeAsWritten | Resume.MainResume |
