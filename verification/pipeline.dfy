/** The download loop `download_task` (downloader.py:276-387): every URL is
    tried up to `max_retries` times; an attempt either completes and
    records a `Success` row, or raises, and the last failed attempt records
    a `FAIL: ...` row and puts the URL on the failed list.

    The extraction engine, the file system and the tag library are an
    oracle: `world(i, r)` is what attempt `r` (counting from 0) of the URL
    at position `i` meets. */
module Pipeline {
  import opened Wrappers
  import opened PyText
  import opened PyValues
  import opened Paths
  import opened Tags

  /** What `extract_info(url, download=True)` does. */
  datatype Engine = Raised(error: string) | Returned(info: Info)

  /** Everything one attempt meets outside the model. */
  datatype Attempt = Attempt(
    engine: Engine,
    size: Option<nat>,        // the size of the resolved path, when a file is there
    tagError: Option<string>, // what the tag library raises opening or saving the file
    descError: Option<string>) // what writing the description file raises

  /** `file_type`. */
  datatype Kind = AudioFile | VideoFile

  /** The options `download_task` receives. `outtmpl` is the output
      template string of the engine options, if set; `playlistSeq` is the
      track sequence, empty when there is none. */
  datatype Config = Config(
    mode: Mode,
    fmt: string,
    outtmpl: Option<string>,
    playlistSeq: seq<int>,
    album: Option<string>,
    doLyrics: bool,
    maxRetries: int)

  /** The variables `final_path`, `file_type` and `size` as an attempt
      leaves them. `final_path` is `""` when it is `None`: the two are
      treated alike wherever it is used. */
  datatype Progress = Progress(path: string, kind: Kind, size: Option<nat>)

  /** How an attempt ends: its variables and the exception it raised, if
      any. */
  datatype Ending = Ending(progress: Progress, error: Option<string>)

  /** A summary row: the file (the resolved path, else the URL), its type,
      its status, and the size in bytes behind the size column (`None` for
      the empty cell). */
  datatype Row = Row(file: string, kind: Kind, status: string, size: Option<nat>)

  /** The two engine options the loop reads or that the selection sets:
      `outtmpl` and `playlist_items`. */
  datatype EngineOptions = EngineOptions(outtmpl: Option<string>, playlistItems: Option<string>)

  /** How `main` builds the options: in audio mode an mp3, m4a or flac
      download replaces the whole dictionary by one that holds the template
      but not `playlist_items`; any other audio format keeps the dictionary
      as it was, without a template; video mode adds the template to it.
      So the selection reaches the engine, unchanged, only in video mode or
      for another audio format, and the template reaches it, unchanged,
      except for another audio format. */
  function BuildOptions(mode: Mode, fmt: string, template: string, playlistItems: Option<string>): (r: EngineOptions)
    ensures r.playlistItems.Some? <==> playlistItems.Some? && (mode == Video || !(fmt == "mp3" || fmt == "m4a" || fmt == "flac"))
    ensures r.playlistItems.Some? ==> r.playlistItems == playlistItems
    ensures r.outtmpl.Some? <==> mode == Video || fmt == "mp3" || fmt == "m4a" || fmt == "flac"
    ensures r.outtmpl.Some? ==> r.outtmpl == Some(template)
  {
    if mode == Audio then
      if fmt == "mp3" || fmt == "m4a" || fmt == "flac" then EngineOptions(Some(template), None)
      else EngineOptions(None, playlistItems)
    else assert mode == Video; EngineOptions(Some(template), playlistItems)
  }

  /** Without a `filepath` from the engine, the path recorded is the template
      when the options carry one, and otherwise `title.fmt`: an audio format
      other than mp3, m4a and flac falls back to the title. */
  lemma OptionsReachEngine(mode: Mode, fmt: string, template: string, items: Option<string>, info: Info)
    ensures var o := BuildOptions(mode, fmt, template, items);
      var c := Config(mode, fmt, o.outtmpl, [], None, false, 1);
      "filepath" !in info && TitleName(info, fmt).Success? ==>
        FinalPath(info, c) == Success(if o.outtmpl.Some? then template else TitleName(info, fmt).value)
  {
  }

  /** The message of the error raised when the engine's first requested
      download is not a dictionary. */
  const NotADownload: string := "requested download is not a dictionary"

  /** The message of the error raised when the last thumbnail is not a
      dictionary or the thumbnail list is not a list. */
  const NotAThumbnail: string := "thumbnail entry is not a dictionary"

  /** `info["requested_downloads"][0]` when that key is present. */
  function Downloaded(info: Info): (r: Result<Info>)
    ensures "requested_downloads" !in info ==> r == Success(info)
    ensures "requested_downloads" in info ==>
      var v := info["requested_downloads"];
      (r.Success? <==> v.List? && v.items != [] && v.items[0].Dict?)
      && (r.Success? ==> r == Success(v.items[0].fields))
  {
    if "requested_downloads" !in info then Success(info)
    else
      match info["requested_downloads"]
      case List(xs) =>
        if xs == [] then Failure("list index out of range")
        else if xs[0].Dict? then Success(xs[0].fields)
        else Failure(NotADownload)
      case Text(s) => if s == "" then Failure("string index out of range") else Failure(NotADownload)
      case Dict(_) => Failure("0")
      case v => Failure("'" + TypeName(v) + "' object is not subscriptable")
  }

  /** `info.get("title", "audiofile") + "." + fmt`, which raises unless the
      title is a string. */
  function TitleName(info: Info, fmt: string): Result<string> {
    match Get(info, "title", Text("audiofile"))
    case Text(s) => Success(s + "." + fmt)
    case List(_) => Failure("can only concatenate list (not \"str\") to list")
    case v => Failure("unsupported operand type(s) for +: '" + TypeName(v) + "' and 'str'")
  }

  /** `final_path`: the `filepath` the engine reports; otherwise the
      `outtmpl` option as it stands, with `title.fmt` as its default. The
      default is built even when the option is set, so a title that is not
      a string raises either way. */
  function FinalPath(info: Info, c: Config): (r: Result<string>)
    ensures "filepath" in info && info["filepath"].Text? ==> r == Success(info["filepath"].s)
    ensures "filepath" !in info && c.outtmpl.Some? && TitleName(info, c.fmt).Success? ==>
      r == Success(c.outtmpl.value)
  {
    if "filepath" in info then Success(if info["filepath"].Text? then info["filepath"].s else "")
    else
      match TitleName(info, c.fmt)
      case Failure(e) => Failure(e)
      case Success(name) => Success(if c.outtmpl.Some? then c.outtmpl.value else name)
  }

  /** The file counts as audio in audio mode, or when the lower-cased path
      ends in `.mp3`, `.flac` or `.m4a`. */
  predicate IsAudio(mode: Mode, path: string) {
    var p := Lower(path);
    mode == Audio || (path != "" && (EndsWith(p, ".mp3") || EndsWith(p, ".flac") || EndsWith(p, ".m4a")))
  }

  /** `tn_url`: the `thumbnail` if truthy, else the `url` of the last entry
      of a non-empty `thumbnails`, else `None`. A last entry without `url`
      raises `KeyError`. */
  function Thumbnail(info: Info): Result<Value> {
    var tn := Get(info, "thumbnail", Null);
    if Truthy(tn) then Success(tn)
    else
      var tl := Get(info, "thumbnails", List([]));
      if !Truthy(tl) then Success(Null)
      else if tl.List? && tl.items[|tl.items| - 1].Dict? then
        var last := tl.items[|tl.items| - 1].fields;
        if "url" in last then Success(last["url"]) else Failure("'url'")
      else Failure(NotAThumbnail)
  }

  /** `playlist_seq[idx - 1] if playlist_seq else None` for the 1-based
      position `idx`. */
  function TrackIndex(c: Config, idx: nat): (r: Result<Option<int>>)
    requires idx >= 1
    ensures c.playlistSeq == [] ==> r == Success(None)
    ensures c.playlistSeq != [] ==> (r.Success? <==> idx <= |c.playlistSeq|)
    ensures r.Success? && c.playlistSeq != [] ==> r.value == Some(c.playlistSeq[idx - 1])
  {
    if c.playlistSeq == [] then Success(None)
    else if idx - 1 < |c.playlistSeq| then Success(Some(c.playlistSeq[idx - 1]))
    else Failure("list index out of range")
  }

  /** The body of the `try` block for the URL at 1-based position `idx`:
      download, resolve the path and its size, classify, and for audio
      files pick the thumbnail, look up the track number, write the tags
      and the description. The cover art step catches its own errors and
      changes none of the variables, so it does not appear. An attempt
      completes only when the engine returned; a size is recorded only for a
      non-empty path and is that file's size; a file is recorded as audio
      only when the classification calls its path audio, and an audio file
      completes only when its track number could be looked up. */
  function RunAttempt(c: Config, idx: nat, a: Attempt): (r: Ending)
    requires idx >= 1
    ensures a.engine.Raised? ==> r.error == Some(a.engine.error)
    ensures r.error.None? ==> a.engine.Returned?
    ensures r.progress.size.Some? ==> r.progress.path != "" && r.progress.size == a.size
    ensures r.progress.kind == AudioFile ==> IsAudio(c.mode, r.progress.path)
    ensures r.progress.kind == AudioFile && r.error.None? ==> TrackIndex(c, idx).Success?
  {
    var blank := Progress("", VideoFile, None);
    match a.engine
    case Raised(e) => Ending(blank, Some(e))
    case Returned(info0) =>
      match Downloaded(info0)
      case Failure(e) => Ending(blank, Some(e))
      case Success(info) =>
        match FinalPath(info, c)
        case Failure(e) => Ending(blank, Some(e))
        case Success(path) =>
          var size := if path != "" then a.size else None;
          if !IsAudio(c.mode, path) then Ending(Progress(path, VideoFile, size), None)
          else
            var p := Progress(path, AudioFile, size);
            match Thumbnail(info)
            case Failure(e) => Ending(p, Some(e))
            case Success(_) =>
              match TrackIndex(c, idx)
              case Failure(e) => Ending(p, Some(e))
              case Success(ix) =>
                var tags := TagOutcome(info, c.fmt, ix, c.album, a.tagError);
                if tags.Failure? then Ending(p, Some(tags.error))
                else if c.doLyrics && Truthy(Get(info, "description", Null)) && a.descError.Some?
                then Ending(p, a.descError)
                else Ending(p, None)
  }

  /** `natural_size(size) if size else ""`: a size of 0 leaves the cell
      empty. */
  function SizeCell(size: Option<nat>): (r: Option<nat>)
    ensures r.Some? ==> r == size && r.value > 0
    ensures size.Some? && size.value > 0 ==> r == size
  {
    if size.Some? && size.value > 0 then size else None
  }

  /** The row appended for an attempt's variables and status. */
  function RowOf(p: Progress, url: string, status: string): Row {
    Row(if p.path != "" then p.path else url, p.kind, status, SizeCell(p.size))
  }

  /** What happens to one URL: its row, whether it failed, and how many
      attempts were made. */
  datatype UrlResult = UrlResult(row: Row, failed: bool, attempts: nat)

  /** How each attempt of the URL at position `i` ends, by attempt number. */
  function Endings(c: Config, world: (nat, nat) -> Attempt, i: nat): nat -> Ending {
    (r: nat) => RunAttempt(c, i + 1, world(i, r))
  }

  /** The retries of a URL whose attempts end as `ends` says, from attempt
      `r` on, with `maxRetries` attempts allowed in all. */
  function FromAttempt(ends: nat -> Ending, maxRetries: int, url: string, r: nat): UrlResult
    requires r < maxRetries
    decreases maxRetries - r
  {
    var end := ends(r);
    if end.error.None? then UrlResult(RowOf(end.progress, url, "Success"), false, r + 1)
    else if r + 1 >= maxRetries then UrlResult(RowOf(end.progress, url, "FAIL: " + end.error.value), true, r + 1)
    else FromAttempt(ends, maxRetries, url, r + 1)
  }

  /** How every attempt ends: `Runs(c, world)(i)(r)` is how attempt `r` of
      the URL at position `i` ends. */
  function Runs(c: Config, world: (nat, nat) -> Attempt): nat -> nat -> Ending {
    (i: nat) => Endings(c, world, i)
  }

  /** What happens to the URL `url` at position `i`. */
  function UrlOutcome(runs: nat -> nat -> Ending, maxRetries: int, i: nat, url: string): UrlResult
    requires maxRetries > 0
  {
    FromAttempt(runs(i), maxRetries, url, 0)
  }

  /** The rows of a list of URLs, in input order; none when no attempt is
      allowed. */
  function TaskRows(runs: nat -> nat -> Ending, maxRetries: int, urls: seq<string>): seq<Row> {
    if urls == [] || maxRetries <= 0 then []
    else
      var i := |urls| - 1;
      TaskRows(runs, maxRetries, urls[..i]) + [UrlOutcome(runs, maxRetries, i, urls[i]).row]
  }

  /** The URLs whose retries ran out, in input order. */
  function TaskFailed(runs: nat -> nat -> Ending, maxRetries: int, urls: seq<string>): seq<string> {
    if urls == [] || maxRetries <= 0 then []
    else
      var i := |urls| - 1;
      TaskFailed(runs, maxRetries, urls[..i]) + (if UrlOutcome(runs, maxRetries, i, urls[i]).failed then [urls[i]] else [])
  }

  /** The caller's `summary` list, which `download_task` appends to. */
  class SummaryTable {
    var rows: seq<Row>

    constructor()
      ensures rows == []
    {
      rows := [];
    }

    /** `summary.append(row)`. */
    method Append(row: Row)
      modifies this
      ensures rows == old(rows) + [row]
    {
      rows := rows + [row];
    }
  }

  /** `download_task`: for each URL in turn, attempt it until an attempt
      completes or `maxRetries` attempts have raised, appending one row to
      the summary when that happens; returns the failed list. */
  method DownloadTask(c: Config, world: (nat, nat) -> Attempt, urls: seq<string>, summary: SummaryTable)
    returns (failed: seq<string>)
    modifies summary
    ensures summary.rows == old(summary.rows) + TaskRows(Runs(c, world), c.maxRetries, urls)
    ensures failed == TaskFailed(Runs(c, world), c.maxRetries, urls)
  {
    failed := [];
    for i := 0 to |urls|
      invariant summary.rows == old(summary.rows) + TaskRows(Runs(c, world), c.maxRetries, urls[..i])
      invariant failed == TaskFailed(Runs(c, world), c.maxRetries, urls[..i])
    {
      TaskStep(Runs(c, world), c.maxRetries, urls, i);
      var urlFailed := RetryUrl(c, world, i, urls[i], summary);
      if urlFailed {
        failed := failed + [urls[i]];
      }
    }
    assert urls[..|urls|] == urls;
  }

  /** The `while retry < max_retries` loop for the URL at position `i`:
      appends the URL's row, if any attempt is allowed, and reports whether
      it failed. */
  method RetryUrl(c: Config, world: (nat, nat) -> Attempt, i: nat, url: string, summary: SummaryTable)
    returns (urlFailed: bool)
    modifies summary
    ensures c.maxRetries <= 0 ==> summary.rows == old(summary.rows) && !urlFailed
    ensures c.maxRetries > 0 ==>
      && summary.rows == old(summary.rows) + [FromAttempt(Endings(c, world, i), c.maxRetries, url, 0).row]
      && urlFailed == FromAttempt(Endings(c, world, i), c.maxRetries, url, 0).failed
  {
    urlFailed := false;
    var ends := Endings(c, world, i);
    var retry := 0;
    var done := false;
    while !done && retry < c.maxRetries
      invariant 0 <= retry
      invariant !done && c.maxRetries > 0 ==>
        retry < c.maxRetries && FromAttempt(ends, c.maxRetries, url, retry) == FromAttempt(ends, c.maxRetries, url, 0)
      invariant !done ==> summary.rows == old(summary.rows) && !urlFailed
      invariant done ==> c.maxRetries > 0
      invariant done ==> summary.rows == old(summary.rows) + [FromAttempt(ends, c.maxRetries, url, 0).row]
      invariant done ==> urlFailed == FromAttempt(ends, c.maxRetries, url, 0).failed
      decreases c.maxRetries - retry, if done then 0 else 1
    {
      // one pass of the body of the `for` loop: the attempt's ending
      var end := ends(retry);
      if end.error.None? {
        summary.Append(RowOf(end.progress, url, "Success"));
        done := true;
      } else {
        retry := retry + 1;
        if retry >= c.maxRetries {
          urlFailed := true;
          summary.Append(RowOf(end.progress, url, "FAIL: " + end.error.value));
          done := true;
        }
      }
    }
  }

  /** One more URL adds its row and, if it failed, the URL itself. */
  lemma TaskStep(runs: nat -> nat -> Ending, maxRetries: int, urls: seq<string>, i: nat)
    requires i < |urls|
    ensures maxRetries <= 0 ==>
      TaskRows(runs, maxRetries, urls[..i + 1]) == [] && TaskFailed(runs, maxRetries, urls[..i + 1]) == []
    ensures maxRetries > 0 ==>
      var u := UrlOutcome(runs, maxRetries, i, urls[i]);
      && TaskRows(runs, maxRetries, urls[..i + 1]) == TaskRows(runs, maxRetries, urls[..i]) + [u.row]
      && TaskFailed(runs, maxRetries, urls[..i + 1]) == TaskFailed(runs, maxRetries, urls[..i]) + (if u.failed then [urls[i]] else [])
  {
    assert urls[..i + 1][..i] == urls[..i];
  }

  // ---------------------------------------------------------------------
  // Properties of the retry loop
  // ---------------------------------------------------------------------

  /** The retries started at attempt `r` make between one and
      `maxRetries - r` more attempts; they fail only if the last of them
      raised, and the row comes from that last attempt's variables (which
      each attempt resets). */
  lemma {:induction false} AttemptBounds(ends: nat -> Ending, maxRetries: int, url: string, r: nat)
    requires r < maxRetries
    ensures var u := FromAttempt(ends, maxRetries, url, r);
      && r < u.attempts <= maxRetries
      && var last := ends(u.attempts - 1);
         && (u.failed <==> last.error.Some?)
         && (u.failed ==> u.attempts == maxRetries && u.row == RowOf(last.progress, url, "FAIL: " + last.error.value))
         && (!u.failed ==> u.row == RowOf(last.progress, url, "Success"))
    decreases maxRetries - r
  {
    if ends(r).error.Some? && r + 1 < maxRetries {
      AttemptBounds(ends, maxRetries, url, r + 1);
    }
  }

  /** A URL every attempt of which raises is attempted exactly `maxRetries`
      times and fails. */
  lemma {:induction false} AlwaysFailing(ends: nat -> Ending, maxRetries: int, url: string, r: nat)
    requires r < maxRetries
    requires forall k :: r <= k < maxRetries ==> ends(k).error.Some?
    ensures FromAttempt(ends, maxRetries, url, r).failed
    ensures FromAttempt(ends, maxRetries, url, r).attempts == maxRetries
    decreases maxRetries - r
  {
    assert ends(r).error.Some?;
    if r + 1 < maxRetries {
      AlwaysFailing(ends, maxRetries, url, r + 1);
    }
  }

  /** A URL whose first attempt raises and whose second completes makes
      two attempts and records a `Success` row. */
  lemma FailOnceThenSucceed(ends: nat -> Ending, maxRetries: int, url: string)
    requires maxRetries >= 2
    requires ends(0).error.Some? && ends(1).error.None?
    ensures var u := FromAttempt(ends, maxRetries, url, 0);
      !u.failed && u.attempts == 2 && u.row.status == "Success"
  {
  }

  /** A URL whose first attempt completes is attempted once and records a
      `Success` row. */
  lemma FirstSucceeds(ends: nat -> Ending, maxRetries: int, url: string)
    requires maxRetries >= 1 && ends(0).error.None?
    ensures var u := FromAttempt(ends, maxRetries, url, 0);
      !u.failed && u.attempts == 1 && u.row == RowOf(ends(0).progress, url, "Success")
  {
  }

  /** Retries whose attempts end alike from `r` on have the same result. */
  lemma {:induction false} SameEndings(e1: nat -> Ending, e2: nat -> Ending, maxRetries: int, url: string, r: nat)
    requires r < maxRetries
    requires forall k :: r <= k < maxRetries ==> e1(k) == e2(k)
    ensures FromAttempt(e1, maxRetries, url, r) == FromAttempt(e2, maxRetries, url, r)
    decreases maxRetries - r
  {
    assert e1(r) == e2(r);
    if r + 1 < maxRetries {
      SameEndings(e1, e2, maxRetries, url, r + 1);
    }
  }

  /** What happens to a URL depends on its own attempts only. This holds
      by the shape of the oracle: the loop keeps no state from one URL to
      the next apart from the summary and the failed list, so only the
      attempts `world(i, _)` of position `i` enter its outcome. */
  lemma Isolation(c: Config, w1: (nat, nat) -> Attempt, w2: (nat, nat) -> Attempt, i: nat, url: string)
    requires c.maxRetries > 0
    requires forall k :: 0 <= k < c.maxRetries ==> w1(i, k) == w2(i, k)
    ensures FromAttempt(Endings(c, w1, i), c.maxRetries, url, 0) == FromAttempt(Endings(c, w2, i), c.maxRetries, url, 0)
  {
    var e1 := Endings(c, w1, i);
    var e2 := Endings(c, w2, i);
    forall k | 0 <= k < c.maxRetries
      ensures e1(k) == e2(k)
    {
      assert w1(i, k) == w2(i, k);
    }
    SameEndings(e1, e2, c.maxRetries, url, 0);
  }

  /** A row's status is `Success` exactly when the URL did not fail, and is
      otherwise `FAIL: ` followed by the error. */
  lemma StatusShape(ends: nat -> Ending, maxRetries: int, url: string)
    requires 0 < maxRetries
    ensures var u := FromAttempt(ends, maxRetries, url, 0);
      && (!u.failed ==> u.row.status == "Success")
      && (u.failed ==> |u.row.status| >= 6 && u.row.status[..6] == "FAIL: ")
  {
    var u := FromAttempt(ends, maxRetries, url, 0);
    AttemptBounds(ends, maxRetries, url, 0);
    if u.failed {
      var e := ends(u.attempts - 1).error.value;
      assert u.row.status == "FAIL: " + e;
    }
  }

  /** With at least one attempt allowed there is exactly one row per URL,
      in input order, each the outcome of that URL alone; with none there
      are no rows and no failures. */
  lemma {:induction false} RowsPerUrl(runs: nat -> nat -> Ending, maxRetries: int, urls: seq<string>)
    ensures maxRetries <= 0 ==> TaskRows(runs, maxRetries, urls) == [] && TaskFailed(runs, maxRetries, urls) == []
    ensures maxRetries > 0 ==>
      && |TaskRows(runs, maxRetries, urls)| == |urls|
      && forall k :: 0 <= k < |urls| ==> TaskRows(runs, maxRetries, urls)[k] == UrlOutcome(runs, maxRetries, k, urls[k]).row
  {
    if urls != [] && maxRetries > 0 {
      var i := |urls| - 1;
      RowsPerUrl(runs, maxRetries, urls[..i]);
      forall k | 0 <= k < |urls|
        ensures TaskRows(runs, maxRetries, urls)[k] == UrlOutcome(runs, maxRetries, k, urls[k]).row
      {
        if k < i {
          assert urls[..i][k] == urls[k];
        }
      }
    }
  }

  /** The URLs of the rows whose status is not `Success`, in order. */
  function FailRowUrls(rows: seq<Row>, urls: seq<string>): seq<string>
    requires |rows| == |urls|
  {
    if rows == [] then []
    else
      var i := |rows| - 1;
      FailRowUrls(rows[..i], urls[..i]) + (if rows[i].status != "Success" then [urls[i]] else [])
  }

  /** A row's status is `Success` or `FAIL: ` and the error, and the
      failed list is exactly the URLs of the `FAIL` rows, in order. */
  lemma FailedMatchesRows(runs: nat -> nat -> Ending, maxRetries: int, urls: seq<string>)
    requires maxRetries > 0
    ensures |TaskRows(runs, maxRetries, urls)| == |urls|
    ensures forall k :: 0 <= k < |urls| ==>
      var s := TaskRows(runs, maxRetries, urls)[k].status;
      s == "Success" || (|s| >= 6 && s[..6] == "FAIL: ")
    ensures TaskFailed(runs, maxRetries, urls) == FailRowUrls(TaskRows(runs, maxRetries, urls), urls)
  {
    RowsPerUrl(runs, maxRetries, urls);
    var rows := TaskRows(runs, maxRetries, urls);
    forall k | 0 <= k < |urls|
      ensures var s := rows[k].status;
        s == "Success" || (|s| >= 6 && s[..6] == "FAIL: ")
    {
      StatusShape(runs(k), maxRetries, urls[k]);
    }
    FailedAreFailRows(runs, maxRetries, urls);
  }

  /** The failed URLs are those of the `FAIL` rows. */
  lemma {:induction false} FailedAreFailRows(runs: nat -> nat -> Ending, maxRetries: int, urls: seq<string>)
    requires maxRetries > 0
    ensures |TaskRows(runs, maxRetries, urls)| == |urls|
    ensures TaskFailed(runs, maxRetries, urls) == FailRowUrls(TaskRows(runs, maxRetries, urls), urls)
  {
    if urls != [] {
      var i := |urls| - 1;
      var u := UrlOutcome(runs, maxRetries, i, urls[i]);
      var before := TaskRows(runs, maxRetries, urls[..i]);
      assert TaskFailed(runs, maxRetries, urls[..i]) == FailRowUrls(before, urls[..i]) by {
        FailedAreFailRows(runs, maxRetries, urls[..i]);
      }
      assert u.failed <==> u.row.status != "Success" by {
        StatusShape(runs(i), maxRetries, urls[i]);
        if u.failed {
          assert u.row.status[0] == 'F';
        }
      }
      var rows := before + [u.row];
      assert TaskRows(runs, maxRetries, urls) == rows;
      assert rows[..i] == before && rows[i] == u.row;
    }
  }

  /** When the engine call of the last allowed attempt raises, a URL that
      fails records the URL itself, `Video`, the engine's error and an empty
      size cell: each attempt resets those variables before the call. An
      engine that raises on every attempt makes the URL fail. */
  lemma EngineFailureRow(c: Config, world: (nat, nat) -> Attempt, i: nat, url: string)
    requires c.maxRetries > 0
    requires world(i, c.maxRetries - 1).engine.Raised?
    ensures var u := FromAttempt(Endings(c, world, i), c.maxRetries, url, 0);
      u.failed ==> u.row == Row(url, VideoFile, "FAIL: " + world(i, c.maxRetries - 1).engine.error, None)
    ensures (forall k :: 0 <= k < c.maxRetries ==> world(i, k).engine.Raised?) ==>
      FromAttempt(Endings(c, world, i), c.maxRetries, url, 0).failed
  {
    var ends := Endings(c, world, i);
    AttemptBounds(ends, c.maxRetries, url, 0);
    assert ends(c.maxRetries - 1) == RunAttempt(c, i + 1, world(i, c.maxRetries - 1));
    if forall k :: 0 <= k < c.maxRetries ==> world(i, k).engine.Raised? {
      forall k | 0 <= k < c.maxRetries
        ensures ends(k).error.Some?
      {
        assert ends(k) == RunAttempt(c, i + 1, world(i, k));
      }
      AlwaysFailing(ends, c.maxRetries, url, 0);
    }
  }

  /** An error raised while writing the tags of an audio file is not
      caught: an attempt that would have completed raises it instead, so
      the URL is retried. */
  lemma TagErrorRaises(c: Config, idx: nat, a: Attempt, e: string)
    requires idx >= 1
    requires IsTagFormat(c.fmt)
    requires RunAttempt(c, idx, a.(tagError := None)).error.None?
    requires RunAttempt(c, idx, a.(tagError := None)).progress.kind == AudioFile
    ensures RunAttempt(c, idx, a.(tagError := Some(e))).error == Some(e)
  {
  }

  /** The classification ignores case: a `.MP3` file is audio in video
      mode too. */
  lemma UpperCaseExtension(name: string)
    ensures IsAudio(Video, name + ".MP3")
  {
    var p := Lower(name + ".MP3");
    assert p[|p| - 4..] == ".mp3";
  }

  /** The classification depends on the path only through its lower-case
      form. */
  lemma AudioIgnoresCase(mode: Mode, path: string)
    ensures IsAudio(mode, path) == IsAudio(mode, Lower(path))
  {
    assert Lower(Lower(path)) == Lower(path);
  }

  /** The thumbnail is the truthy `thumbnail` field; failing that, the
      `url` of the last entry of a truthy `thumbnails` list, a last entry
      without `url` raising; failing that, none. A truthy `thumbnails` that
      is not a list ending in a dictionary raises. */
  lemma ThumbnailChoice(info: Info)
    ensures var tn := Get(info, "thumbnail", Null);
      Truthy(tn) ==> Thumbnail(info) == Success(tn)
    ensures var tn := Get(info, "thumbnail", Null);
      var tl := Get(info, "thumbnails", List([]));
      !Truthy(tn) && !Truthy(tl) ==> Thumbnail(info) == Success(Null)
    ensures var tn := Get(info, "thumbnail", Null);
      var tl := Get(info, "thumbnails", List([]));
      !Truthy(tn) && tl.List? && tl.items != [] && tl.items[|tl.items| - 1].Dict? ==>
        var last := tl.items[|tl.items| - 1].fields;
        Thumbnail(info) == if "url" in last then Success(last["url"]) else Failure("'url'")
    ensures var tn := Get(info, "thumbnail", Null);
      var tl := Get(info, "thumbnails", List([]));
      !Truthy(tn) && Truthy(tl) && !(tl.List? && tl.items[|tl.items| - 1].Dict?) ==> Thumbnail(info).Failure?
  {
  }

  /** The stages of one attempt: an engine error, a download lookup error
      or a path error leaves the variables blank and raises; once the path
      is resolved the row keeps it, its size is looked up only for a
      non-empty path, and the file is audio exactly when the
      classification says so; a video file always completes, and an audio
      file completes only when the thumbnail choice, the track lookup and
      the tagging do not raise. */
  lemma AttemptOutcome(c: Config, idx: nat, a: Attempt)
    requires idx >= 1
    ensures var e := RunAttempt(c, idx, a);
      a.engine.Raised? ==> e == Ending(Progress("", VideoFile, None), Some(a.engine.error))
    ensures var e := RunAttempt(c, idx, a);
      a.engine.Returned? && Downloaded(a.engine.info).Failure? ==>
        e == Ending(Progress("", VideoFile, None), Some(Downloaded(a.engine.info).error))
    ensures var e := RunAttempt(c, idx, a);
      a.engine.Returned? && Downloaded(a.engine.info).Success? && FinalPath(Downloaded(a.engine.info).value, c).Failure? ==>
        e == Ending(Progress("", VideoFile, None), Some(FinalPath(Downloaded(a.engine.info).value, c).error))
    ensures var e := RunAttempt(c, idx, a);
      a.engine.Returned? && Downloaded(a.engine.info).Success? && FinalPath(Downloaded(a.engine.info).value, c).Success? ==>
        var info := Downloaded(a.engine.info).value;
        var path := FinalPath(info, c).value;
        && e.progress.path == path
        && e.progress.size == (if path != "" then a.size else None)
        && (e.progress.kind == AudioFile <==> IsAudio(c.mode, path))
        && (!IsAudio(c.mode, path) ==> e.error.None?)
        && (IsAudio(c.mode, path) && e.error.None? ==>
              && Thumbnail(info).Success?
              && TrackIndex(c, idx).Success?
              && TagOutcome(info, c.fmt, TrackIndex(c, idx).value, c.album, a.tagError).Success?)
  {
  }

  /** The end-to-end example of three URLs in audio mode with two attempts
      each, where the middle one raises both times: three rows, `Success`,
      `FAIL`, `Success`, and only the middle URL failed. */
  lemma ThreeUrlScenario(runs: nat -> nat -> Ending, urls: seq<string>)
    requires |urls| == 3
    requires runs(0)(0).error.None?
    requires runs(1)(0).error.Some? && runs(1)(1).error.Some?
    requires runs(2)(0).error.None?
    ensures |TaskRows(runs, 2, urls)| == 3
    ensures TaskRows(runs, 2, urls)[0].status == "Success"
    ensures TaskRows(runs, 2, urls)[1].status == "FAIL: " + runs(1)(1).error.value
    ensures TaskRows(runs, 2, urls)[2].status == "Success"
    ensures TaskFailed(runs, 2, urls) == [urls[1]]
  {
    var u0 := UrlOutcome(runs, 2, 0, urls[0]);
    var u1 := UrlOutcome(runs, 2, 1, urls[1]);
    var u2 := UrlOutcome(runs, 2, 2, urls[2]);
    assert !u0.failed && u0.row.status == "Success" by {
      FirstSucceeds(runs(0), 2, urls[0]);
    }
    assert !u2.failed && u2.row.status == "Success" by {
      FirstSucceeds(runs(2), 2, urls[2]);
    }
    assert u1.failed && u1.row.status == "FAIL: " + runs(1)(1).error.value by {
      AlwaysFailing(runs(1), 2, urls[1], 0);
      AttemptBounds(runs(1), 2, urls[1], 0);
    }
    assert TaskFailed(runs, 2, urls) == [urls[1]] by {
      assert urls[..0] == [];
      TaskStep(runs, 2, urls, 0);
      TaskStep(runs, 2, urls, 1);
      TaskStep(runs, 2, urls, 2);
      assert urls[..3] == urls;
    }
    RowsPerUrl(runs, 2, urls);
  }

  /** A download the engine reports at a path ends an audio attempt without
      error when there is no thumbnail, no track sequence, no tag or
      description error and nothing to date, so the scenario above can
      arise. */
  lemma PlainAudioCompletes(c: Config, path: string, size: Option<nat>)
    requires c.mode == Audio && c.playlistSeq == []
    ensures var a := Attempt(Returned(map["filepath" := Text(path)]), size, None, None);
      RunAttempt(c, 1, a) == Ending(Progress(path, AudioFile, if path != "" then size else None), None)
  {
    var info: Info := map["filepath" := Text(path)];
    assert "release_year" !in info && "upload_date" !in info;
    assert "requested_downloads" !in info;
    assert "description" !in info;
    assert "thumbnail" !in info && "thumbnails" !in info;
  }
}
