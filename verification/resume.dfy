/** The resume check: which playlist entries or URLs already have a file on
    disk and are skipped, and which are still to be downloaded. The module
    level `resume_check` (downloader.py:160-191) searches the output tree
    for each entry's expected file name; the function of the same name
    defined inside `main` (downloader.py:702-742) looks only in the output
    folder itself and adds a branch for plain URL lists.

    The file system is the sequence `files` of the paths of the existing
    files, in the order the file system lists them. */
module Resume {
  import opened Wrappers
  import opened PyText
  import opened Paths
  import opened Urls
  import opened Playlist

  /** What the check is given: the playlist entries or a list of URLs. */
  datatype Listing = EntryList(entries: seq<Entry>) | UrlList(urls: seq<string>)

  /** Both versions take the playlist branch only in playlist mode and for a
      non-empty list of entries. */
  predicate PlaylistBranch(listing: Listing, playlistMode: bool) {
    playlistMode && listing.EntryList? && listing.entries != []
  }

  /** `f"{idx:02d} - {title}.{fmt}"` with the sanitized title. */
  function ExpectedName(e: Entry, fmt: string): string {
    Pad2(e.index) + " - " + Sanitize(e.title) + "." + fmt
  }

  // ---------------------------------------------------------------------
  // The module-level resume_check (downloader.py:160-191)
  // ---------------------------------------------------------------------

  /** The path lies in `folder` or in a directory below it. */
  predicate Below(p: string, folder: string) {
    DirPrefix(folder) <= p
  }

  /** `glob(os.path.join(folder, "**", name), recursive=True)`: the existing
      files called `name` anywhere under `folder`, in listing order. */
  function FindBelow(files: seq<string>, folder: string, name: string): (r: seq<string>)
    ensures forall p :: p in r <==> p in files && Below(p, folder) && Basename(p) == name
  {
    if files == [] then []
    else
      var p := files[|files| - 1];
      FindBelow(files[..|files| - 1], folder, name)
        + (if Below(p, folder) && Basename(p) == name then [p] else [])
  }

  /** `matches[0]` when there are matches. */
  function FirstMatch(files: seq<string>, folder: string, e: Entry, fmt: string): Option<string> {
    var ms := FindBelow(files, folder, ExpectedName(e, fmt));
    if ms == [] then None else Some(ms[0])
  }

  /** The watch URLs of the entries without a file, in entry order: at most
      one per entry, and every entry without a file has its URL among them. */
  function Pending(es: seq<Entry>, folder: string, fmt: string, files: seq<string>): (r: seq<string>)
    ensures forall e :: e in es && FirstMatch(files, folder, e, fmt).None? ==> WatchUrl(e.id) in r
  {
    if es == [] then []
    else
      var e := es[|es| - 1];
      assert es == es[..|es| - 1] + [e];
      Pending(es[..|es| - 1], folder, fmt, files)
        + (if FirstMatch(files, folder, e, fmt).None? then [WatchUrl(e.id)] else [])
  }

  /** The first match of each entry that has one, in entry order: existing
      files below the folder only. */
  function Found(es: seq<Entry>, folder: string, fmt: string, files: seq<string>): (r: seq<string>)
    ensures forall p :: p in r ==> p in files && Below(p, folder)
  {
    if es == [] then []
    else
      var e := es[|es| - 1];
      var m := FirstMatch(files, folder, e, fmt);
      var ms := FindBelow(files, folder, ExpectedName(e, fmt));
      assert ms != [] ==> ms[0] in ms;
      Found(es[..|es| - 1], folder, fmt, files) + (if m.Some? then [m.value] else [])
  }

  /** `for_dir_counts`: how many of the paths lie in each directory. Every
      path's directory is counted, and the counts add up to the number of
      paths. */
  function Tally(paths: seq<string>): (r: map<string, nat>)
    ensures forall p :: p in paths ==> Dirname(p) in r
    ensures MapSum(r) == |paths|
  {
    if paths == [] then map[]
    else
      var t := Tally(paths[..|paths| - 1]);
      var d := Dirname(paths[|paths| - 1]);
      assert paths == paths[..|paths| - 1] + [paths[|paths| - 1]];
      MapSumIncrement(t, d);
      t[d := (if d in t then t[d] else 0) + 1]
  }

  /** The sum of the values of a map. */
  ghost function MapSum(m: map<string, nat>): nat
    decreases |m.Keys|
  {
    if m == map[] then 0
    else
      var k :| k in m;
      assert (m - {k}).Keys < m.Keys;
      m[k] + MapSum(m - {k})
  }

  /** The module-level `resume_check`. In the playlist branch every entry
      is looked up under the output folder; the first match is skipped and
      counted against its directory, otherwise the entry's watch URL is
      pending. Otherwise the input comes back unchanged and nothing is
      skipped. */
  method ResumeCheck(listing: Listing, outFolder: string, fmt: string, playlistMode: bool, files: seq<string>)
    returns (toDownload: Listing, skipped: seq<string>, dirCounts: map<string, nat>)
    ensures !PlaylistBranch(listing, playlistMode) ==>
      toDownload == listing && skipped == [] && dirCounts == map[]
    ensures PlaylistBranch(listing, playlistMode) ==>
      && toDownload == UrlList(Pending(listing.entries, outFolder, fmt, files))
      && skipped == Found(listing.entries, outFolder, fmt, files)
    ensures dirCounts == Tally(skipped)
    ensures MapSum(dirCounts) == |skipped|
  {
    skipped := [];
    dirCounts := map[];
    if PlaylistBranch(listing, playlistMode) {
      var es := listing.entries;
      var pending: seq<string> := [];
      for i := 0 to |es|
        invariant pending == Pending(es[..i], outFolder, fmt, files)
        invariant skipped == Found(es[..i], outFolder, fmt, files)
        invariant dirCounts == Tally(skipped)
      {
        var found := LookUp(files, outFolder, es[i], fmt);
        ResumeStep(es, i, outFolder, fmt, files);
        if found.Some? {
          var m := found.value;
          TallyStep(skipped, m);
          skipped := skipped + [m];
          var d := Dirname(m);
          dirCounts := dirCounts[d := (if d in dirCounts then dirCounts[d] else 0) + 1];
        } else {
          pending := pending + [WatchUrl(es[i].id)];
        }
      }
      assert es[..|es|] == es;
      toDownload := UrlList(pending);
    } else {
      toDownload := listing;
    }
  }

  /** The lookup of one entry: its expected name, then the first file of
      that name under the output folder, if any. */
  method LookUp(files: seq<string>, folder: string, e: Entry, fmt: string) returns (found: Option<string>)
    ensures found == FirstMatch(files, folder, e, fmt)
    ensures found.Some? ==>
      found.value in files && Below(found.value, folder) && Basename(found.value) == ExpectedName(e, fmt)
  {
    var title := Sanitize(e.title);
    var fname := Pad2(e.index) + " - " + title + "." + fmt;
    var matches := FindBelow(files, folder, fname);
    if matches != [] {
      found := Some(matches[0]);
      assert matches[0] in matches;
    } else {
      found := None;
    }
  }

  /** One more entry extends either the pending URLs or the skipped paths. */
  lemma ResumeStep(es: seq<Entry>, i: int, folder: string, fmt: string, files: seq<string>)
    requires 0 <= i < |es|
    ensures var m := FirstMatch(files, folder, es[i], fmt);
      && Pending(es[..i + 1], folder, fmt, files)
         == Pending(es[..i], folder, fmt, files) + (if m.None? then [WatchUrl(es[i].id)] else [])
      && Found(es[..i + 1], folder, fmt, files)
         == Found(es[..i], folder, fmt, files) + (if m.Some? then [m.value] else [])
  {
    assert es[..i + 1][..i] == es[..i];
  }

  lemma TallyStep(paths: seq<string>, p: string)
    ensures var t := Tally(paths); var d := Dirname(p);
      Tally(paths + [p]) == t[d := (if d in t then t[d] else 0) + 1]
  {
    assert (paths + [p])[..|paths|] == paths;
  }

  // ---------------------------------------------------------------------
  // Properties of the module-level check
  // ---------------------------------------------------------------------

  /** Every entry is either pending or skipped, never both and never
      neither: a pending URL is that of an entry without a file, and the
      skipped paths are exactly the first matches of the entries. */
  lemma {:induction false} ResumePartition(es: seq<Entry>, folder: string, fmt: string, files: seq<string>)
    ensures |Pending(es, folder, fmt, files)| + |Found(es, folder, fmt, files)| == |es|
    ensures forall u :: u in Pending(es, folder, fmt, files) ==>
      exists e :: e in es && FirstMatch(files, folder, e, fmt).None? && u == WatchUrl(e.id)
    ensures forall p :: p in Found(es, folder, fmt, files) ==>
      exists e :: e in es && FirstMatch(files, folder, e, fmt) == Some(p)
    ensures forall e :: e in es && FirstMatch(files, folder, e, fmt).Some? ==>
      FirstMatch(files, folder, e, fmt).value in Found(es, folder, fmt, files)
  {
    PartitionCount(es, folder, fmt, files);
    PendingAreMissing(es, folder, fmt, files);
    FoundAreMatches(es, folder, fmt, files);
  }

  lemma {:induction false} PartitionCount(es: seq<Entry>, folder: string, fmt: string, files: seq<string>)
    ensures |Pending(es, folder, fmt, files)| + |Found(es, folder, fmt, files)| == |es|
  {
    if es != [] {
      PartitionCount(es[..|es| - 1], folder, fmt, files);
    }
  }

  lemma {:induction false} PendingAreMissing(es: seq<Entry>, folder: string, fmt: string, files: seq<string>)
    ensures forall u :: u in Pending(es, folder, fmt, files) ==>
      exists e :: e in es && FirstMatch(files, folder, e, fmt).None? && u == WatchUrl(e.id)
  {
    if es != [] {
      var init := es[..|es| - 1];
      var e := es[|es| - 1];
      PendingAreMissing(init, folder, fmt, files);
      forall u | u in Pending(es, folder, fmt, files)
        ensures exists e' :: e' in es && FirstMatch(files, folder, e', fmt).None? && u == WatchUrl(e'.id)
      {
        if u in Pending(init, folder, fmt, files) {
          var e' :| e' in init && FirstMatch(files, folder, e', fmt).None? && u == WatchUrl(e'.id);
          assert e' in es;
        } else {
          assert e in es;
        }
      }
    }
  }

  lemma {:induction false} FoundAreMatches(es: seq<Entry>, folder: string, fmt: string, files: seq<string>)
    ensures forall p :: p in Found(es, folder, fmt, files) ==>
      exists e :: e in es && FirstMatch(files, folder, e, fmt) == Some(p)
    ensures forall e :: e in es && FirstMatch(files, folder, e, fmt).Some? ==>
      FirstMatch(files, folder, e, fmt).value in Found(es, folder, fmt, files)
  {
    if es != [] {
      var init := es[..|es| - 1];
      var e := es[|es| - 1];
      FoundAreMatches(init, folder, fmt, files);
      assert es == init + [e];
      forall p | p in Found(es, folder, fmt, files)
        ensures exists e' :: e' in es && FirstMatch(files, folder, e', fmt) == Some(p)
      {
        if p in Found(init, folder, fmt, files) {
          var e' :| e' in init && FirstMatch(files, folder, e', fmt) == Some(p);
          assert e' in es;
        } else {
          assert e in es;
        }
      }
    }
  }


  /** Every skipped path is an existing file under the output folder named
      as some entry expects. */
  lemma {:induction false} FoundAreFiles(es: seq<Entry>, folder: string, fmt: string, files: seq<string>)
    ensures forall p :: p in Found(es, folder, fmt, files) ==>
      p in files && Below(p, folder) && exists e :: e in es && Basename(p) == ExpectedName(e, fmt)
  {
    if es != [] {
      var init := es[..|es| - 1];
      var e := es[|es| - 1];
      FoundAreFiles(init, folder, fmt, files);
      var ms := FindBelow(files, folder, ExpectedName(e, fmt));
      if ms != [] {
        assert ms[0] in ms;
      }
      forall p | p in Found(es, folder, fmt, files)
        ensures exists e' :: e' in es && Basename(p) == ExpectedName(e', fmt)
      {
        if p in Found(init, folder, fmt, files) {
          var e' :| e' in init && Basename(p) == ExpectedName(e', fmt);
          assert e' in es;
        } else {
          assert e in es;
        }
      }
    }
  }

  /** With no file on disk every entry is pending, in order. */
  lemma NothingOnDisk(es: seq<Entry>, folder: string, fmt: string)
    ensures Found(es, folder, fmt, []) == []
    ensures |Pending(es, folder, fmt, [])| == |es|
    ensures forall k :: 0 <= k < |es| ==> Pending(es, folder, fmt, [])[k] == WatchUrl(es[k].id)
  {
    NothingFound(es, folder, fmt);
    AllPending(es, folder, fmt);
  }

  lemma {:induction false} NothingFound(es: seq<Entry>, folder: string, fmt: string)
    ensures Found(es, folder, fmt, []) == []
  {
    if es != [] {
      NothingFound(es[..|es| - 1], folder, fmt);
      NoFileNoMatch(folder, es[|es| - 1], fmt);
    }
  }

  lemma {:induction false} AllPending(es: seq<Entry>, folder: string, fmt: string)
    ensures |Pending(es, folder, fmt, [])| == |es|
    ensures forall k :: 0 <= k < |es| ==> Pending(es, folder, fmt, [])[k] == WatchUrl(es[k].id)
  {
    if es != [] {
      var init := es[..|es| - 1];
      var e := es[|es| - 1];
      AllPending(init, folder, fmt);
      var p := Pending(init, folder, fmt, []);
      assert es == init + [e];
      assert Pending(es, folder, fmt, []) == p + [WatchUrl(e.id)] by {
        NoFileNoMatch(folder, e, fmt);
        PendingSnoc(init, e, folder, fmt, []);
      }
      WatchUrlsSnoc(p, init, e);
    }
  }

  /** Appending an entry and its watch URL keeps the URLs in step with the
      entries. */
  lemma WatchUrlsSnoc(p: seq<string>, es: seq<Entry>, e: Entry)
    requires |p| == |es|
    requires forall k :: 0 <= k < |es| ==> p[k] == WatchUrl(es[k].id)
    ensures forall k :: 0 <= k < |es| + 1 ==> (p + [WatchUrl(e.id)])[k] == WatchUrl((es + [e])[k].id)
  {
  }

  lemma NoFileNoMatch(folder: string, e: Entry, fmt: string)
    ensures FirstMatch([], folder, e, fmt) == None
  {
  }

  /** Removing one key from the sum. */
  lemma {:induction false} MapSumRemove(m: map<string, nat>, k: string)
    requires k in m
    ensures MapSum(m) == m[k] + MapSum(m - {k})
    decreases |m.Keys|
  {
    var j :| j in m && MapSum(m) == m[j] + MapSum(m - {j});
    if j != k {
      assert (m - {j}).Keys < m.Keys;
      MapSumRemove(m - {j}, k);
      MapSumRemove(m - {k}, j);
      assert m - {j} - {k} == m - {k} - {j};
    }
  }

  /** `counts[d] = counts.get(d, 0) + 1` adds one to the sum. */
  lemma MapSumIncrement(m: map<string, nat>, d: string)
    ensures MapSum(m[d := (if d in m then m[d] else 0) + 1]) == MapSum(m) + 1
  {
    var m' := m[d := (if d in m then m[d] else 0) + 1];
    MapSumRemove(m', d);
    if d in m {
      MapSumRemove(m, d);
      assert m' - {d} == m - {d};
    } else {
      assert m' - {d} == m;
    }
  }

  /** A name without `/` joined to a folder is its own base name. */
  lemma BasenameOfJoin(folder: string, name: string)
    requires '/' !in name
    ensures Basename(DirPrefix(folder) + name) == name
  {
    SlashEndAppend(DirPrefix(folder), name);
    DirPrefixSlashEnd(folder);
    assert (DirPrefix(folder) + name)[|DirPrefix(folder)|..] == name;
  }

  /** Of two entries with different expected names, only the first of which
      has its file directly in the output folder, the second is pending and
      that file is skipped. */
  lemma FirstOfTwoPresent(folder: string, e1: Entry, e2: Entry, fmt: string)
    requires '/' !in ExpectedName(e1, fmt)
    requires ExpectedName(e1, fmt) != ExpectedName(e2, fmt)
    ensures var path := DirPrefix(folder) + ExpectedName(e1, fmt);
      && Pending([e1, e2], folder, fmt, [path]) == [WatchUrl(e2.id)]
      && Found([e1, e2], folder, fmt, [path]) == [path]
  {
    var path := DirPrefix(folder) + ExpectedName(e1, fmt);
    OneFileMatches(folder, e1, e2, fmt);
    OfTwo(e1, e2, folder, fmt, [path]);
  }

  /** A single file directly in the folder matches the entry whose name it
      carries and no entry with another name. */
  lemma OneFileMatches(folder: string, e1: Entry, e2: Entry, fmt: string)
    requires '/' !in ExpectedName(e1, fmt)
    requires ExpectedName(e1, fmt) != ExpectedName(e2, fmt)
    ensures var path := DirPrefix(folder) + ExpectedName(e1, fmt);
      && FirstMatch([path], folder, e1, fmt) == Some(path)
      && FirstMatch([path], folder, e2, fmt) == None
  {
    var n1 := ExpectedName(e1, fmt);
    var path := DirPrefix(folder) + n1;
    BasenameOfJoin(folder, n1);
    assert [path][..0] == [];
    assert FindBelow([path], folder, n1) == [path];
    assert FindBelow([path], folder, ExpectedName(e2, fmt)) == [];
  }

  lemma PendingSnoc(es: seq<Entry>, e: Entry, folder: string, fmt: string, files: seq<string>)
    ensures Pending(es + [e], folder, fmt, files)
      == Pending(es, folder, fmt, files) + (if FirstMatch(files, folder, e, fmt).None? then [WatchUrl(e.id)] else [])
  {
    assert (es + [e])[..|es|] == es;
  }

  lemma FoundSnoc(es: seq<Entry>, e: Entry, folder: string, fmt: string, files: seq<string>)
    ensures var m := FirstMatch(files, folder, e, fmt);
      Found(es + [e], folder, fmt, files) == Found(es, folder, fmt, files) + (if m.Some? then [m.value] else [])
  {
    assert (es + [e])[..|es|] == es;
  }

  /** The pending URLs and skipped paths of two entries. */
  lemma OfTwo(e1: Entry, e2: Entry, folder: string, fmt: string, files: seq<string>)
    ensures var m1 := FirstMatch(files, folder, e1, fmt);
      var m2 := FirstMatch(files, folder, e2, fmt);
      && Pending([e1, e2], folder, fmt, files)
         == (if m1.None? then [WatchUrl(e1.id)] else []) + (if m2.None? then [WatchUrl(e2.id)] else [])
      && Found([e1, e2], folder, fmt, files)
         == (if m1.Some? then [m1.value] else []) + (if m2.Some? then [m2.value] else [])
  {
    PendingOfTwo(e1, e2, folder, fmt, files);
    FoundOfTwo(e1, e2, folder, fmt, files);
  }

  lemma PendingOfTwo(e1: Entry, e2: Entry, folder: string, fmt: string, files: seq<string>)
    ensures Pending([e1, e2], folder, fmt, files)
      == Pending([], folder, fmt, files)
         + (if FirstMatch(files, folder, e1, fmt).None? then [WatchUrl(e1.id)] else [])
         + (if FirstMatch(files, folder, e2, fmt).None? then [WatchUrl(e2.id)] else [])
  {
    assert [e1, e2] == [e1] + [e2];
    assert [e1] == [] + [e1];
    PendingSnoc([], e1, folder, fmt, files);
    PendingSnoc([e1], e2, folder, fmt, files);
  }

  lemma FoundOfTwo(e1: Entry, e2: Entry, folder: string, fmt: string, files: seq<string>)
    ensures var m1 := FirstMatch(files, folder, e1, fmt);
      var m2 := FirstMatch(files, folder, e2, fmt);
      Found([e1, e2], folder, fmt, files)
      == Found([], folder, fmt, files) + (if m1.Some? then [m1.value] else []) + (if m2.Some? then [m2.value] else [])
  {
    assert [e1, e2] == [e1] + [e2];
    assert [e1] == [] + [e1];
    FoundSnoc([], e1, folder, fmt, files);
    FoundSnoc([e1], e2, folder, fmt, files);
  }

  /** The two-entry example: of two entries `A` and `B`, only the
      first has its file `01 - A.mp3` in the output folder, so the second is
      pending and that file is skipped. */
  lemma TwoEntryExample(folder: string, id1: Option<string>, id2: Option<string>)
    ensures var es := [Entry(1, id1, "A"), Entry(2, id2, "B")];
      var path := DirPrefix(folder) + "01 - A.mp3";
      && Pending(es, folder, "mp3", [path]) == [WatchUrl(id2)]
      && Found(es, folder, "mp3", [path]) == [path]
  {
    var e1 := Entry(1, id1, "A");
    var e2 := Entry(2, id2, "B");
    assert ExpectedName(e1, "mp3") == "01 - A.mp3" by {
      assert Pad2(1) == "01";
      assert Sanitize("A") == "A";
    }
    assert ExpectedName(e2, "mp3") == "02 - B.mp3" by {
      assert Pad2(2) == "02";
      assert Sanitize("B") == "B";
    }
    assert "01 - A.mp3"[1] != "02 - B.mp3"[1];
    FirstOfTwoPresent(folder, e1, e2, "mp3");
  }

  // ---------------------------------------------------------------------
  // The resume_check defined inside main (downloader.py:702-742)
  // ---------------------------------------------------------------------

  /** The path lies directly in `folder`. */
  predicate InFolder(p: string, folder: string) {
    DirPrefix(folder) <= p && '/' !in p[|DirPrefix(folder)|..]
  }

  /** The file name matches the pattern `*{vid}*.{fmt}`: it does not start
      with a dot (a leading `*` skips hidden files), it ends with `.fmt`,
      and the id occurs before that ending. */
  predicate GlobMatch(name: string, vid: string, fmt: string) {
    && |name| >= |fmt| + 1
    && name[0] != '.'
    && EndsWith(name, "." + fmt)
    && Contains(name[..|name| - |fmt| - 1], vid)
  }

  /** `glob(os.path.join(folder, f"*{vid}*.{fmt}"))`, in listing order. */
  function FindInFolder(files: seq<string>, folder: string, vid: string, fmt: string): (r: seq<string>)
    ensures forall p :: p in r <==>
      p in files && InFolder(p, folder) && GlobMatch(p[|DirPrefix(folder)|..], vid, fmt)
  {
    if files == [] then []
    else
      var p := files[|files| - 1];
      FindInFolder(files[..|files| - 1], folder, vid, fmt)
        + (if InFolder(p, folder) && GlobMatch(p[|DirPrefix(folder)|..], vid, fmt) then [p] else [])
  }

  /** The files a URL is matched against: none when no id can be read
      from it. */
  function FlatMatches(files: seq<string>, folder: string, u: string, fmt: string): seq<string> {
    var vid := VideoId(u);
    if vid.Some? && vid.value != "" then FindInFolder(files, folder, vid.value, fmt) else []
  }

  /** The URLs without a matching file, in input order: a URL is pending
      exactly when it is one of the input URLs and no file matches it. */
  function FlatPending(us: seq<string>, folder: string, fmt: string, files: seq<string>): (r: seq<string>)
    ensures |r| <= |us|
    ensures forall u :: u in r <==> u in us && FlatMatches(files, folder, u, fmt) == []
  {
    if us == [] then []
    else
      var u := us[|us| - 1];
      assert us == us[..|us| - 1] + [u];
      FlatPending(us[..|us| - 1], folder, fmt, files)
        + (if FlatMatches(files, folder, u, fmt) == [] then [u] else [])
  }

  /** All matching files of all URLs, in input order. */
  function FlatSkipped(us: seq<string>, folder: string, fmt: string, files: seq<string>): seq<string> {
    if us == [] then []
    else
      FlatSkipped(us[..|us| - 1], folder, fmt, files) + FlatMatches(files, folder, us[|us| - 1], fmt)
  }

  /** `os.path.join(out_folder, fname)` for an entry. */
  function EntryPath(folder: string, e: Entry, fmt: string): string {
    PathJoin(folder, ExpectedName(e, fmt))
  }

  /** The watch URLs of the entries whose file is not in the folder: at most
      one per entry, and every entry whose file is missing has its URL among
      them. */
  function FolderPending(es: seq<Entry>, folder: string, fmt: string, files: seq<string>): (r: seq<string>)
    ensures |r| <= |es|
    ensures forall e :: e in es && EntryPath(folder, e, fmt) !in files ==> WatchUrl(e.id) in r
  {
    if es == [] then []
    else
      var e := es[|es| - 1];
      assert es == es[..|es| - 1] + [e];
      FolderPending(es[..|es| - 1], folder, fmt, files)
        + (if EntryPath(folder, e, fmt) !in files then [WatchUrl(e.id)] else [])
  }

  /** The paths of the entries whose file is in the folder: existing files
      only, and every entry's file that exists among them. */
  function FolderSkipped(es: seq<Entry>, folder: string, fmt: string, files: seq<string>): (r: seq<string>)
    ensures forall p :: p in r ==> p in files
    ensures forall e :: e in es && EntryPath(folder, e, fmt) in files ==> EntryPath(folder, e, fmt) in r
  {
    if es == [] then []
    else
      var e := es[|es| - 1];
      assert es == es[..|es| - 1] + [e];
      FolderSkipped(es[..|es| - 1], folder, fmt, files)
        + (if EntryPath(folder, e, fmt) in files then [EntryPath(folder, e, fmt)] else [])
  }

  /** The URLs of a listing; a list of entries has none. */
  function ListingUrls(listing: Listing): seq<string> {
    if listing.UrlList? then listing.urls else []
  }

  /** The `resume_check` defined inside `main`. In the playlist branch each
      entry's expected file is looked for in the output folder only. Any
      other listing is a list of URLs: the id after `v=` is searched for in
      the names of the files of the folder with the format's extension, a
      URL with matches is skipped together with all of them, and a URL
      without an id or without matches stays pending. A non-empty list of
      entries outside playlist mode would raise when matched as URLs; `main`
      never passes one. */
  method ResumeCheckInMain(listing: Listing, outFolder: string, fmt: string, playlistMode: bool, files: seq<string>)
    returns (toDownload: seq<string>, skipped: seq<string>)
    requires listing.EntryList? && listing.entries != [] ==> playlistMode
    ensures PlaylistBranch(listing, playlistMode) ==>
      && toDownload == FolderPending(listing.entries, outFolder, fmt, files)
      && skipped == FolderSkipped(listing.entries, outFolder, fmt, files)
    ensures !PlaylistBranch(listing, playlistMode) ==>
      && toDownload == FlatPending(ListingUrls(listing), outFolder, fmt, files)
      && skipped == FlatSkipped(ListingUrls(listing), outFolder, fmt, files)
  {
    toDownload := [];
    skipped := [];
    if PlaylistBranch(listing, playlistMode) {
      var es := listing.entries;
      for i := 0 to |es|
        invariant toDownload == FolderPending(es[..i], outFolder, fmt, files)
        invariant skipped == FolderSkipped(es[..i], outFolder, fmt, files)
      {
        var title := Sanitize(es[i].title);
        var fname := Pad2(es[i].index) + " - " + title + "." + fmt;
        var path := PathJoin(outFolder, fname);
        FolderStep(es, i, outFolder, fmt, files);
        if path in files {
          skipped := skipped + [path];
        } else {
          toDownload := toDownload + [WatchUrl(es[i].id)];
        }
      }
      assert es[..|es|] == es;
    } else {
      var us := ListingUrls(listing);
      for i := 0 to |us|
        invariant toDownload == FlatPending(us[..i], outFolder, fmt, files)
        invariant skipped == FlatSkipped(us[..i], outFolder, fmt, files)
      {
        var u := us[i];
        var vid := VideoId(u);
        var matches := if vid.Some? && vid.value != "" then FindInFolder(files, outFolder, vid.value, fmt) else [];
        FlatStep(us, i, outFolder, fmt, files);
        if matches != [] {
          skipped := skipped + matches;
        } else {
          toDownload := toDownload + [u];
        }
      }
      assert us[..|us|] == us;
    }
  }

  lemma FolderStep(es: seq<Entry>, i: int, folder: string, fmt: string, files: seq<string>)
    requires 0 <= i < |es|
    ensures var path := EntryPath(folder, es[i], fmt);
      && FolderPending(es[..i + 1], folder, fmt, files)
         == FolderPending(es[..i], folder, fmt, files) + (if path !in files then [WatchUrl(es[i].id)] else [])
      && FolderSkipped(es[..i + 1], folder, fmt, files)
         == FolderSkipped(es[..i], folder, fmt, files) + (if path in files then [path] else [])
  {
    assert es[..i + 1][..i] == es[..i];
  }

  lemma FlatStep(us: seq<string>, i: int, folder: string, fmt: string, files: seq<string>)
    requires 0 <= i < |us|
    ensures var ms := FlatMatches(files, folder, us[i], fmt);
      && FlatPending(us[..i + 1], folder, fmt, files)
         == FlatPending(us[..i], folder, fmt, files) + (if ms == [] then [us[i]] else [])
      && FlatSkipped(us[..i + 1], folder, fmt, files) == FlatSkipped(us[..i], folder, fmt, files) + ms
  {
    assert us[..i + 1][..i] == us[..i];
  }

  // ---------------------------------------------------------------------
  // Properties of the check inside main
  // ---------------------------------------------------------------------

  /** A name matches `*{vid}*.{fmt}` exactly when it does not start with a
      dot, ends with `.fmt`, and `vid` occurs somewhere that ends before that
      suffix. */
  lemma GlobMatchIff(name: string, vid: string, fmt: string)
    ensures GlobMatch(name, vid, fmt) <==>
      && name != [] && name[0] != '.'
      && EndsWith(name, "." + fmt)
      && exists i :: OccursAt(name, vid, i) && i + |vid| + 1 + |fmt| <= |name|
  {
    if |name| >= |fmt| + 1 {
      var pre := name[..|name| - |fmt| - 1];
      ContainsIff(pre, vid);
      forall i | OccursAt(pre, vid, i) ensures OccursAt(name, vid, i) {
        assert name[i..i + |vid|] == pre[i..i + |vid|];
      }
      forall i | OccursAt(name, vid, i) && i + |vid| + 1 + |fmt| <= |name|
        ensures OccursAt(pre, vid, i)
      {
        assert name[i..i + |vid|] == pre[i..i + |vid|];
      }
    }
  }

  /** In particular a URL from which no id can be read is never skipped. */
  lemma NoIdStaysPending(us: seq<string>, u: string, folder: string, fmt: string, files: seq<string>)
    requires u in us && VideoId(u).None?
    ensures u in FlatPending(us, folder, fmt, files)
  {
  }

  /** A skipped path is an existing file directly in the output folder
      whose name matches the id of one of the URLs. */
  lemma {:induction false} FlatSkippedAreMatches(us: seq<string>, folder: string, fmt: string, files: seq<string>)
    ensures forall p :: p in FlatSkipped(us, folder, fmt, files) ==>
      && p in files && InFolder(p, folder)
      && exists u :: u in us && VideoId(u).Some?
                     && GlobMatch(p[|DirPrefix(folder)|..], VideoId(u).value, fmt)
  {
    if us != [] {
      var init := us[..|us| - 1];
      var u := us[|us| - 1];
      FlatSkippedAreMatches(init, folder, fmt, files);
      forall p | p in FlatSkipped(us, folder, fmt, files)
        ensures && p in files && InFolder(p, folder)
                && exists u' :: u' in us && VideoId(u').Some?
                                && GlobMatch(p[|DirPrefix(folder)|..], VideoId(u').value, fmt)
      {
        if p in FlatSkipped(init, folder, fmt, files) {
          var u' :| u' in init && VideoId(u').Some? && GlobMatch(p[|DirPrefix(folder)|..], VideoId(u').value, fmt);
          assert u' in us;
        } else {
          assert p in FlatMatches(files, folder, u, fmt);
          assert u in us;
        }
      }
    }
  }

  /** In the playlist branch every entry is either pending or skipped. */
  lemma {:induction false} FolderPartition(es: seq<Entry>, folder: string, fmt: string, files: seq<string>)
    ensures |FolderPending(es, folder, fmt, files)| + |FolderSkipped(es, folder, fmt, files)| == |es|
  {
    if es != [] {
      FolderPartition(es[..|es| - 1], folder, fmt, files);
    }
  }

  /** An expected name is a single path segment that starts with a digit
      (so joining it to a folder never replaces the folder). */
  lemma ExpectedNameShape(e: Entry, fmt: string)
    requires '/' !in fmt
    ensures var n := ExpectedName(e, fmt); n != [] && IsDigit(n[0]) && '/' !in n
  {
    var n := ExpectedName(e, fmt);
    var p := Pad2(e.index);
    var t := Sanitize(e.title);
    SanitizeIsSafe(e.title);
    assert n == p + " - " + t + "." + fmt;
    assert n[0] == p[0];
    forall k | 0 <= k < |n| ensures n[k] != '/' {
      if k < |p| {
        assert n[k] == p[k];
      } else if k < |p| + 3 {
        assert n[k] == " - "[k - |p|];
      } else if k < |p| + 3 + |t| {
        assert n[k] == t[k - |p| - 3];
      } else if k == |p| + 3 + |t| {
        assert n[k] == '.';
      } else {
        assert n[k] == fmt[k - |p| - 4 - |t|];
      }
    }
  }

  /** An entry the check inside `main` skips is also skipped by the
      module-level check, which searches the whole tree below the folder. */
  lemma FolderSkipIsFound(files: seq<string>, folder: string, e: Entry, fmt: string)
    requires '/' !in fmt
    requires EntryPath(folder, e, fmt) in files
    ensures FirstMatch(files, folder, e, fmt).Some?
  {
    var n := ExpectedName(e, fmt);
    var p := EntryPath(folder, e, fmt);
    assert Below(p, folder) && Basename(p) == n by {
      ExpectedNameShape(e, fmt);
      BasenameOfJoin(folder, n);
      assert p == DirPrefix(folder) + n;
    }
    assert p in FindBelow(files, folder, n);
  }

  /** The output template puts every download in a directory below the
      output folder (the uploader's, downloader.py:637-649), while the check
      inside `main` looks for each entry's file directly in the folder: a
      path below the folder that runs through a subdirectory is never the
      path it looks for. */
  lemma FolderCheckMissesSubdirectories(folder: string, rest: string, e: Entry, fmt: string)
    requires '/' !in fmt
    requires '/' in rest
    ensures DirPrefix(folder) + rest != EntryPath(folder, e, fmt)
  {
    var n := ExpectedName(e, fmt);
    ExpectedNameShape(e, fmt);
    assert EntryPath(folder, e, fmt) == DirPrefix(folder) + n;
    assert (DirPrefix(folder) + rest)[|DirPrefix(folder)|..] == rest;
    assert (DirPrefix(folder) + n)[|DirPrefix(folder)|..] == n;
  }

  /** The recursive lookup of the module-level check does find an entry's
      file in a directory below the output folder, such as the uploader's
      directory the output template starts with. */
  lemma LookupFindsSubdirectories(files: seq<string>, folder: string, dir: string, e: Entry, fmt: string)
    requires '/' !in fmt
    requires DirPrefix(folder) + dir + "/" + ExpectedName(e, fmt) in files
    ensures FirstMatch(files, folder, e, fmt).Some?
  {
    var n := ExpectedName(e, fmt);
    ExpectedNameShape(e, fmt);
    SubdirectoryFile(folder, dir, n);
    assert DirPrefix(folder) + dir + "/" + n in FindBelow(files, folder, n);
  }

  /** A name in a directory below the folder lies below it and is its own
      base name. */
  lemma SubdirectoryFile(folder: string, dir: string, n: string)
    requires '/' !in n
    ensures var p := DirPrefix(folder) + dir + "/" + n;
      Below(p, folder) && Basename(p) == n
  {
    var x := DirPrefix(folder) + dir + "/";
    BasenameAfterSlash(x, n);
    assert x + n == DirPrefix(folder) + (dir + "/" + n);
  }

  // ---------------------------------------------------------------------
  // The resume step of main (downloader.py:744-770)
  // ---------------------------------------------------------------------

  /** The URLs left to download, the skipped files and the number of
      skipped files per directory. */
  datatype Outcome = Outcome(toDownload: seq<string>, skipped: seq<string>, byDir: map<string, nat>)

  /** The unpacking error raised when a pair is unpacked into three names. */
  const UnpackError: string := "not enough values to unpack (expected 3, got 2)"

  /** The resume step as written: when the check is offered (a playlist or a
      URL list read from a file) and accepted, the result of the inner
      `resume_check`, a pair, is unpacked into three names, which raises.
      Otherwise the URLs to download are the playlist URLs in playlist mode
      and the entered URLs otherwise, with nothing skipped. */
  method MainResumeAsWritten(playlistMode: bool, inputWasFile: bool, accepted: bool,
                             entries: seq<Entry>, playlistUrls: seq<string>, urls: seq<string>,
                             folder: string, fmt: string, files: seq<string>)
    returns (r: Result<Outcome>)
    ensures (playlistMode || inputWasFile) && accepted ==> r == Failure(UnpackError)
    ensures !((playlistMode || inputWasFile) && accepted) ==>
      r == Success(Outcome(if playlistMode then playlistUrls else urls, [], map[]))
  {
    var urlsToDownload := if playlistMode then playlistUrls else urls;
    if (playlistMode || inputWasFile) && accepted {
      var listing := if playlistMode then EntryList(entries) else UrlList(urlsToDownload);
      var toDownload, skipped := ResumeCheckInMain(listing, folder, fmt, playlistMode, files);
      // The pair (toDownload, skipped) has two items where three are expected.
      return Failure(UnpackError);
    }
    r := Success(Outcome(urlsToDownload, [], map[]));
  }

  /** The resume step as intended: a playlist is checked by the module-level
      `resume_check`, which searches the whole tree below the output folder
      (where the output template puts every download) and returns the three
      values the step unpacks; a URL list keeps the flat search of the check
      inside `main`, and its skipped files are counted per directory too.
      `None` is the user declining to go on once files were found, which
      ends the program. */
  method MainResume(playlistMode: bool, inputWasFile: bool, accepted: bool, proceed: bool,
                    entries: seq<Entry>, playlistUrls: seq<string>, urls: seq<string>,
                    folder: string, fmt: string, files: seq<string>)
    returns (r: Option<Outcome>)
    ensures !((playlistMode || inputWasFile) && accepted) ==>
      r == Some(Outcome(if playlistMode then playlistUrls else urls, [], map[]))
    ensures (playlistMode || inputWasFile) && accepted ==>
      var branch := playlistMode && entries != [];
      var pending := if branch then Pending(entries, folder, fmt, files)
                     else FlatPending(if playlistMode then [] else urls, folder, fmt, files);
      var skipped := if branch then Found(entries, folder, fmt, files)
                     else FlatSkipped(if playlistMode then [] else urls, folder, fmt, files);
      && (skipped != [] && !proceed ==> r == None)
      && (skipped == [] || proceed ==> r == Some(Outcome(pending, skipped, Tally(skipped))))
    ensures r.Some? ==> MapSum(r.value.byDir) == |r.value.skipped|
  {
    var urlsToDownload := if playlistMode then playlistUrls else urls;
    if (playlistMode || inputWasFile) && accepted {
      var toDownload: seq<string>, skipped: seq<string>, byDir: map<string, nat>;
      if playlistMode && entries != [] {
        var listing: Listing;
        listing, skipped, byDir := ResumeCheck(EntryList(entries), folder, fmt, true, files);
        toDownload := listing.urls;
      } else {
        var list := UrlList(if playlistMode then [] else urls);
        toDownload, skipped := ResumeCheckInMain(list, folder, fmt, playlistMode, files);
        byDir := Tally(skipped);
      }
      if skipped != [] && !proceed {
        return None;
      }
      r := Some(Outcome(toDownload, skipped, byDir));
    } else {
      r := Some(Outcome(urlsToDownload, [], map[]));
    }
  }
}
