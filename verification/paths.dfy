/** File names and paths: the sanitizer applied to titles and album names,
    POSIX path joining and splitting, and the output template handed to the
    extraction engine (downloader.py, `sanitize` and lines 637-649, 685). */
module Paths {
  import opened Wrappers
  import opened PyText

  // ---------------------------------------------------------------------
  // sanitize
  // ---------------------------------------------------------------------

  /** The characters that may not appear in a path segment: / \ : * ? " < > | */
  predicate IsForbidden(c: char) {
    c == '/' || c == '\\' || c == ':' || c == '*' || c == '?'
    || c == '"' || c == '<' || c == '>' || c == '|'
  }

  /** `sanitize(s)`: every forbidden character becomes `_`, every other
      character is kept, in place. */
  function Sanitize(s: string): (r: string)
    ensures |r| == |s|
    ensures forall k :: 0 <= k < |s| ==> r[k] == (if IsForbidden(s[k]) then '_' else s[k])
  {
    if s == [] then [] else [if IsForbidden(s[0]) then '_' else s[0]] + Sanitize(s[1..])
  }

  predicate SafeSegment(s: string) {
    forall k :: 0 <= k < |s| ==> !IsForbidden(s[k])
  }

  /** A sanitized string holds no forbidden character, in particular no `/`,
      so it is always a single path segment. */
  lemma SanitizeIsSafe(s: string)
    ensures SafeSegment(Sanitize(s)) && '/' !in Sanitize(s)
  {
  }

  /** Sanitizing leaves a string alone exactly when it is already safe. */
  lemma SanitizeFixes(s: string)
    ensures Sanitize(s) == s <==> SafeSegment(s)
  {
  }

  /** Sanitizing twice is the same as sanitizing once. */
  lemma SanitizeIdempotent(s: string)
    ensures Sanitize(Sanitize(s)) == Sanitize(s)
  {
    SanitizeIsSafe(s);
    SanitizeFixes(Sanitize(s));
  }

  // ---------------------------------------------------------------------
  // os.path.join, os.path.basename, os.path.dirname (POSIX)
  // ---------------------------------------------------------------------

  /** `os.path.join(a, b)`: an absolute `b` replaces `a`; otherwise a `/` is
      inserted unless `a` is empty or already ends with one. The ensures only
      unfold the two cases for callers; the facts about joined paths are
      JoinBasename, JoinDirname and NestedJoin. */
  function PathJoin(a: string, b: string): (r: string)
    ensures |b| > 0 && b[0] == '/' ==> r == b
    ensures (|b| == 0 || b[0] != '/') ==> r == DirPrefix(a) + b
  {
    if |b| > 0 && b[0] == '/' then b
    else if a == "" || a[|a| - 1] == '/' then a + b
    else a + "/" + b
  }

  /** What `os.path.join(a, x)` puts in front of a relative `x`. */
  function DirPrefix(a: string): string {
    if a == "" || a[|a| - 1] == '/' then a else a + "/"
  }

  /** One past the position of the last `/` (`p.rfind('/') + 1`), 0 if none. */
  function SlashEnd(p: string): (r: nat)
    ensures r <= |p|
    ensures '/' !in p[r..]
    ensures r > 0 ==> p[r - 1] == '/'
  {
    if p == [] then 0
    else if p[|p| - 1] == '/' then |p|
    else
      var r := SlashEnd(p[..|p| - 1]);
      assert p[r..] == p[..|p| - 1][r..] + [p[|p| - 1]];
      r
  }

  /** `os.path.basename(p)`: the part after the last `/`. */
  function Basename(p: string): (r: string)
    ensures |r| <= |p| && '/' !in r && p == p[..|p| - |r|] + r
    ensures |r| < |p| ==> p[|p| - |r| - 1] == '/'
  {
    p[SlashEnd(p)..]
  }

  /** The last `/` of `x + y` is in `y` if `y` has one, else it is that of
      `x`. */
  lemma {:induction false} SlashEndAppend(x: string, y: string)
    ensures SlashEnd(x + y) == if '/' in y then |x| + SlashEnd(y) else SlashEnd(x)
    decreases |y|
  {
    if y == [] {
      assert x + y == x;
    } else {
      var z := x + y;
      var y' := y[..|y| - 1];
      assert y == y' + [y[|y| - 1]];
      if y[|y| - 1] != '/' {
        assert z[..|z| - 1] == x + y';
        SlashEndAppend(x, y');
      }
    }
  }

  /** A name without `/` that follows a `/` is its own base name. */
  lemma BasenameAfterSlash(x: string, n: string)
    requires x != [] && x[|x| - 1] == '/' && '/' !in n
    ensures Basename(x + n) == n
  {
    SlashEndAppend(x, n);
    assert (x + n)[|x|..] == n;
  }

  /** What `os.path.join` puts in front of a relative path ends at a `/`,
      or is empty. */
  lemma DirPrefixSlashEnd(a: string)
    ensures SlashEnd(DirPrefix(a)) == |DirPrefix(a)|
  {
  }

  /** Joining a non-empty path to a folder keeps its base name. */
  lemma JoinBasename(a: string, b: string)
    requires b != []
    ensures Basename(PathJoin(a, b)) == Basename(b)
  {
    if b[0] != '/' {
      var d := DirPrefix(a);
      SlashEndAppend(d, b);
      DirPrefixSlashEnd(a);
      if '/' in b {
        assert (d + b)[|d| + SlashEnd(b)..] == b[SlashEnd(b)..];
      } else {
        assert SlashEnd(b) == 0;
        assert (d + b)[|d|..] == b;
      }
    }
  }

  /** The directory part of a single name joined to a folder written
      without a trailing `/` is that folder. */
  lemma JoinDirname(a: string, b: string)
    requires a != [] && a[|a| - 1] != '/'
    requires b != [] && '/' !in b
    ensures Dirname(PathJoin(a, b)) == a
  {
    var p := PathJoin(a, b);
    assert p == (a + "/") + b;
    SlashEndAppend(a + "/", b);
    var head := p[..SlashEnd(p)];
    assert head == a + "/";
    assert head[|a| - 1] != '/';
    assert head[..|head| - 1] == a;
    assert StripSlashesRight(head) == StripSlashesRight(a) == a;
  }

  /** `head.rstrip('/')`. */
  function StripSlashesRight(s: string): string {
    if s != [] && s[|s| - 1] == '/' then StripSlashesRight(s[..|s| - 1]) else s
  }

  /** `os.path.dirname(p)`: the part up to the last `/`, trailing slashes
      removed unless that part is made of slashes only. */
  function Dirname(p: string): string {
    var head := p[..SlashEnd(p)];
    if head != "" && exists k :: 0 <= k < |head| && head[k] != '/'
    then StripSlashesRight(head)
    else head
  }

  // ---------------------------------------------------------------------
  // The output template (downloader.py:637-649 and 685)
  // ---------------------------------------------------------------------

  datatype Mode = Audio | Video

  const UploaderPattern: string := "%(uploader)s"
  const IndexedName: string := "%(playlist_index)02d - %(title)s.%(ext)s"
  const PlainName: string := "%(title)s.%(ext)s"

  /** `album` used as a truth value: present and not empty. */
  predicate HasAlbum(album: Option<string>) {
    album.Some? && album.value != ""
  }

  /** The directory levels the template adds below the output folder: the
      uploader, then the album for an audio playlist with an album name, then
      the file name, which carries the playlist index only for an audio
      playlist. */
  function TemplateSegments(mode: Mode, playlist: bool, album: Option<string>): seq<string> {
    var name := if mode == Audio && playlist then IndexedName else PlainName;
    if mode == Audio && playlist && HasAlbum(album)
    then [UploaderPattern, Sanitize(album.value), name]
    else [UploaderPattern, name]
  }

  /** The `outtmpl` string built in `main` for the chosen mode, playlist flag
      and album name. It is the output folder followed by exactly the
      segments of `TemplateSegments`: splitting the part below the folder at
      `/` gives them back, so an album name can never add directory levels,
      and the template always names a file ending in `.%(ext)s`. */
  function OutputTemplate(folder: string, mode: Mode, playlist: bool, album: Option<string>): (r: string)
    ensures var segs := TemplateSegments(mode, playlist, album);
      && r == DirPrefix(folder) + Join(segs, '/')
      && Split(Join(segs, '/'), '/') == segs
      && EndsWith(r, ".%(ext)s")
  {
    PatternFacts();
    SanitizeIsSafe(album.GetOr(""));
    SplitJoin(TemplateSegments(mode, playlist, album), '/');
    if mode == Audio then
      if playlist && HasAlbum(album) then
        AlbumTemplate(folder, album.value);
        PathJoin(PathJoin(folder, UploaderPattern + "/" + Sanitize(album.value)), IndexedName)
      else if playlist then
        FlatTemplate(folder, IndexedName);
        PathJoin(PathJoin(folder, UploaderPattern), IndexedName)
      else
        FlatTemplate(folder, PlainName);
        PathJoin(PathJoin(folder, UploaderPattern), PlainName)
    else
      FlatTemplate(folder, PlainName);
      PathJoin(PathJoin(folder, UploaderPattern), PlainName)
  }

  lemma AlbumTemplate(folder: string, album: string)
    requires album != ""
    ensures var segs := [UploaderPattern, Sanitize(album), IndexedName];
      && PathJoin(PathJoin(folder, UploaderPattern + "/" + Sanitize(album)), IndexedName) == DirPrefix(folder) + Join(segs, '/')
      && EndsWith(DirPrefix(folder) + Join(segs, '/'), ".%(ext)s")
  {
    var a := Sanitize(album);
    var segs := [UploaderPattern, a, IndexedName];
    PatternFacts();
    SanitizeIsSafe(album);
    assert a[|a| - 1] != '/';
    NestedJoin(folder, UploaderPattern, a, IndexedName);
    JoinEndsWith(segs, '/', ".%(ext)s");
    EndsWithAppend(DirPrefix(folder), Join(segs, '/'), ".%(ext)s");
  }

  lemma FlatTemplate(folder: string, name: string)
    requires |name| > 0 && name[0] != '/' && EndsWith(name, ".%(ext)s")
    ensures PathJoin(PathJoin(folder, UploaderPattern), name) == DirPrefix(folder) + Join([UploaderPattern, name], '/')
    ensures EndsWith(DirPrefix(folder) + Join([UploaderPattern, name], '/'), ".%(ext)s")
  {
    var segs := [UploaderPattern, name];
    PatternFacts();
    FlatJoin(folder, UploaderPattern, name);
    JoinEndsWith(segs, '/', ".%(ext)s");
    EndsWithAppend(DirPrefix(folder), Join(segs, '/'), ".%(ext)s");
  }

  /** `os.path.join(f, u, n)` for relative `u` and `n`, `u` without a
      trailing slash, is `f`'s prefix followed by `u/n`. */
  lemma FlatJoin(f: string, u: string, n: string)
    requires |u| > 0 && u[0] != '/' && u[|u| - 1] != '/'
    requires |n| > 0 && n[0] != '/'
    ensures PathJoin(PathJoin(f, u), n) == DirPrefix(f) + Join([u, n], '/')
  {
    JoinTwice(f, u, n);
    JoinTwo(u, n, '/');
  }

  /** `os.path.join(f, u + "/" + a, n)` is `f`'s prefix followed by
      `u/a/n`. */
  lemma NestedJoin(f: string, u: string, a: string, n: string)
    requires |u| > 0 && u[0] != '/'
    requires |a| > 0 && a[|a| - 1] != '/'
    requires |n| > 0 && n[0] != '/'
    ensures PathJoin(PathJoin(f, u + "/" + a), n) == DirPrefix(f) + Join([u, a, n], '/')
  {
    var dir := u + "/" + a;
    assert dir[0] == u[0] && dir[|dir| - 1] == a[|a| - 1];
    JoinTwice(f, dir, n);
    JoinThree(u, a, n, '/');
  }

  /** A joined list ends with whatever its last piece ends with. */
  lemma {:induction false} JoinEndsWith(segs: seq<string>, sep: char, z: string)
    requires |segs| > 0 && EndsWith(segs[|segs| - 1], z)
    ensures EndsWith(Join(segs, sep), z)
  {
    if |segs| > 1 {
      JoinEndsWith(segs[1..], sep, z);
      EndsWithAppend(segs[0] + [sep], Join(segs[1..], sep), z);
    }
  }

  lemma PatternFacts()
    ensures '/' !in UploaderPattern && '/' !in IndexedName && '/' !in PlainName
    ensures UploaderPattern[0] != '/' && UploaderPattern[|UploaderPattern| - 1] != '/'
    ensures IndexedName[0] != '/' && PlainName[0] != '/'
    ensures EndsWith(IndexedName, ".%(ext)s") && EndsWith(PlainName, ".%(ext)s")
  {
    assert IndexedName == "%(playlist_index)02d - %(title)s" + ".%(ext)s";
    assert PlainName == "%(title)s" + ".%(ext)s";
  }

  /** `os.path.join(f, d, n)` for relative `d` and `n`, `d` without a
      trailing slash. */
  lemma JoinTwice(f: string, d: string, n: string)
    requires |d| > 0 && d[0] != '/' && d[|d| - 1] != '/'
    requires |n| > 0 && n[0] != '/'
    ensures PathJoin(PathJoin(f, d), n) == DirPrefix(f) + (d + "/" + n)
  {
    var fd := DirPrefix(f) + d;
    assert fd[|fd| - 1] == d[|d| - 1];
  }

  lemma JoinTwo(a: string, b: string, sep: char)
    ensures Join([a, b], sep) == a + [sep] + b
  {
    assert [a, b][1..] == [b];
  }

  lemma JoinThree(a: string, b: string, c: string, sep: char)
    ensures Join([a, b, c], sep) == a + [sep] + b + [sep] + c
  {
    assert [a, b, c][1..] == [b, c];
    JoinTwo(b, c, sep);
    assert a + [sep] + (b + [sep] + c) == a + [sep] + b + [sep] + c;
  }

  lemma EndsWithAppend(x: string, y: string, z: string)
    requires EndsWith(y, z)
    ensures EndsWith(x + y, z)
  {
    assert (x + y)[|x + y| - |z|..] == y[|y| - |z|..];
  }
}
