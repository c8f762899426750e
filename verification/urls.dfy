/** Classification of the URLs the user enters, the watch URL built for a
    playlist entry, and the video id read back out of a URL
    (downloader.py `guess_is_music`, `is_playlist`, lines 187, 634, 722 and 729-731). */
module Urls {
  import opened Wrappers
  import opened PyText

  /** `guess_is_music(url)`: the URL points into YouTube Music, that is,
      `music.youtube.com` occurs somewhere in it. */
  function GuessIsMusic(url: string): (r: bool)
    ensures r <==> exists i :: OccursAt(url, "music.youtube.com", i)
  {
    ContainsIff(url, "music.youtube.com");
    Contains(url, "music.youtube.com")
  }

  /** `is_playlist(url)`. A URL counts as a playlist exactly when one of the
      three playlist markers occurs somewhere in it and `watch?` occurs
      nowhere: a watch URL that also names a list is downloaded as a single
      video. */
  function IsPlaylist(url: string): (r: bool)
    ensures r <==>
      (exists i :: OccursAt(url, "list=", i) || OccursAt(url, "/playlist?", i) || OccursAt(url, "/playlist/", i))
      && forall i :: !OccursAt(url, "watch?", i)
  {
    ContainsIff(url, "list=");
    ContainsIff(url, "/playlist?");
    ContainsIff(url, "/playlist/");
    ContainsIff(url, "watch?");
    (Contains(url, "list=") || Contains(url, "/playlist?") || Contains(url, "/playlist/"))
    && !Contains(url, "watch?")
  }

  /** A watch URL opened from inside a playlist is not treated as a playlist. */
  lemma WatchInPlaylistIsNotPlaylist()
    ensures !IsPlaylist("https://www.youtube.com/watch?v=abc&list=PL1")
  {
    var u := "https://www.youtube.com/watch?v=abc&list=PL1";
    assert u == "https://www.youtube.com/" + "watch?" + "v=abc&list=PL1";
    ContainsMiddle("https://www.youtube.com/", "watch?", "v=abc&list=PL1");
  }

  /** A YouTube Music link is recognised as music. */
  lemma MusicLinkIsMusic(id: string)
    ensures GuessIsMusic("https://music.youtube.com/watch?v=" + id)
  {
    var m := "https://music.youtube.com/watch?v=" + id;
    assert m == "https://" + "music.youtube.com" + ("/watch?v=" + id);
    ContainsMiddle("https://", "music.youtube.com", "/watch?v=" + id);
  }

  lemma ContainsMiddle(a: string, b: string, c: string)
    ensures Contains(a + b + c, b)
  {
    assert (a + b + c)[|a|..|a| + |b|] == b;
    assert OccursAt(a + b + c, b, |a|);
    ContainsIff(a + b + c, b);
  }

  const WatchPrefix: string := "https://www.youtube.com/watch?"

  /** `f"https://www.youtube.com/watch?v={id}"`; a missing id is formatted
      as the text `None`. */
  function WatchUrl(id: Option<string>): string {
    WatchPrefix + "v=" + (if id.Some? then id.value else "None")
  }

  // ---------------------------------------------------------------------
  // re.search(r"v=([\w-]+)", u).group(1)
  // ---------------------------------------------------------------------

  /** A character of the class `[\w-]` (ASCII word characters and `-`). */
  predicate IsIdChar(c: char) {
    'a' <= c <= 'z' || 'A' <= c <= 'Z' || '0' <= c <= '9' || c == '_' || c == '-'
  }

  predicate AllIdChars(s: string) {
    forall k :: 0 <= k < |s| ==> IsIdChar(s[k])
  }

  /** The longest prefix of `s` made of `[\w-]` characters (the greedy `+`). */
  function IdRun(s: string): (r: string)
    ensures r <= s && AllIdChars(r)
    ensures |r| == |s| || !IsIdChar(s[|r|])
  {
    if s != [] && IsIdChar(s[0]) then [s[0]] + IdRun(s[1..]) else []
  }

  /** The pattern `v=[\w-]` matches at position `i`. */
  predicate IdStartsAt(u: string, i: int) {
    0 <= i && i + 2 < |u| && u[i] == 'v' && u[i + 1] == '=' && IsIdChar(u[i + 2])
  }

  /** The captured group of the leftmost match, if any: a non-empty run of
      id characters. */
  function VideoId(u: string): (r: Option<string>)
    ensures r.Some? ==> r.value != [] && AllIdChars(r.value)
    decreases |u|
  {
    if |u| < 3 then None
    else if IdStartsAt(u, 0) then Some(IdRun(u[2..]))
    else VideoId(u[1..])
  }

  /** `VideoId` finds the leftmost position where `v=` is followed by an id
      character and captures the whole run of id characters there; it finds
      nothing exactly when no position qualifies. */
  lemma {:induction false} VideoIdLeftmost(u: string)
    ensures VideoId(u).None? <==> forall i :: !IdStartsAt(u, i)
    ensures VideoId(u).Some? ==> exists i ::
      && IdStartsAt(u, i)
      && (forall j :: 0 <= j < i ==> !IdStartsAt(u, j))
      && VideoId(u).value == IdRun(u[i + 2..])
    decreases |u|
  {
    if |u| < 3 {
      assert forall i :: !IdStartsAt(u, i);
    } else if IdStartsAt(u, 0) {
      assert VideoId(u).value == IdRun(u[0 + 2..]);
    } else {
      VideoIdLeftmost(u[1..]);
      forall i | IdStartsAt(u[1..], i) ensures IdStartsAt(u, i + 1) {}
      forall i | IdStartsAt(u, i) && i > 0 ensures IdStartsAt(u[1..], i - 1) {}
      if VideoId(u).Some? {
        var i :| && IdStartsAt(u[1..], i)
                 && (forall j :: 0 <= j < i ==> !IdStartsAt(u[1..], j))
                 && VideoId(u[1..]).value == IdRun(u[1..][i + 2..]);
        assert u[1..][i + 2..] == u[i + 1 + 2..];
        assert IdStartsAt(u, i + 1);
        forall j | 0 <= j < i + 1 ensures !IdStartsAt(u, j) {
          if j > 0 {
            assert !IdStartsAt(u[1..], j - 1);
          }
        }
      }
    }
  }

  /** Text without `=` in front of a string that does not start with `=`
      cannot hold a match, so the search carries on past it. */
  lemma {:induction false} VideoIdSkips(p: string, x: string)
    requires '=' !in p
    requires |x| > 0 && x[0] != '='
    ensures VideoId(p + x) == VideoId(x)
  {
    if p != [] {
      assert (p + x)[1..] == p[1..] + x;
      assert !IdStartsAt(p + x, 0) by {
        if |p| > 1 {
          assert (p + x)[1] == p[1];
        } else {
          assert (p + x)[1] == x[0];
        }
      }
      VideoIdSkips(p[1..], x);
    } else {
      assert p + x == x;
    }
  }

  /** The id read back from the watch URL built for an id made of `[\w-]`
      characters is that id. */
  lemma WatchUrlVideoId(id: string)
    requires id != [] && AllIdChars(id)
    ensures VideoId(WatchUrl(Some(id))) == Some(id)
  {
    assert '=' !in WatchPrefix;
    var x := "v=" + id;
    assert WatchUrl(Some(id)) == WatchPrefix + x;
    VideoIdSkips(WatchPrefix, x);
    assert IdStartsAt(x, 0);
    assert x[2..] == id;
    IdRunAll(id);
  }

  lemma {:induction false} IdRunAll(s: string)
    requires AllIdChars(s)
    ensures IdRun(s) == s
  {
    if s != [] {
      IdRunAll(s[1..]);
    }
  }
}
