/** The playlist entries listed for selection (`fetch_playlist_entries`,
    downloader.py:127-142) and the plan built from the user's selection in
    `main` (downloader.py:627-636): the selected positions, the
    `playlist_items` option, the watch URLs, the track sequence and the
    album name. */
module Playlist {
  import opened Wrappers
  import opened PyText
  import opened Urls
  import opened Selection

  /** One item of the flat listing the engine returns: its `id` and `title`
      fields, `None` when absent. */
  datatype RawEntry = RawEntry(id: Option<string>, title: Option<string>)

  /** The dictionary `{"index": i, "id": ..., "title": ...}` built per item. */
  datatype Entry = Entry(index: nat, id: Option<string>, title: string)

  /** `f"Untitled {i}"`. */
  function Untitled(i: nat): (r: string)
    ensures r != []
  {
    "Untitled " + NatToString(i)
  }

  /** Builds the entries from what `extract_info` does: `answer` is the
      error it raises, or the listing it returns, `None` when the returned
      info has no `entries` key. The error is not caught and ends the run. */
  method FetchEntries(answer: Result<Option<seq<RawEntry>>>) returns (r: Result<seq<Entry>>)
    ensures answer.Failure? ==> r == Failure(answer.error)
    ensures answer == Success(None) ==> r == Success([])
    ensures answer.Success? && answer.value.Some? ==> r.Success? && Listed(answer.value.value, r.value)
  {
    if answer.Failure? {
      return Failure(answer.error);
    }
    if answer.value.None? {
      return Success([]);
    }
    var entries := NumberEntries(answer.value.value);
    r := Success(entries);
  }

  /** The entries built from a listing: the i-th item (counting from 1)
      gets index i, keeps its id, and keeps its title unless that is
      missing or empty, in which case it is called `Untitled i`. */
  predicate Listed(raws: seq<RawEntry>, entries: seq<Entry>) {
    && |entries| == |raws|
    && forall k :: 0 <= k < |entries| ==>
         && entries[k].index == k + 1
         && entries[k].id == raws[k].id
         && (if raws[k].title.Some? && raws[k].title.value != ""
             then entries[k].title == raws[k].title.value
             else entries[k].title == Untitled(k + 1))
  }

  /** The loop `for i, e in enumerate(info["entries"], 1)`; every title it
      gives is non-empty. */
  method NumberEntries(raws: seq<RawEntry>) returns (entries: seq<Entry>)
    ensures Listed(raws, entries)
    ensures forall k :: 0 <= k < |entries| ==> entries[k].title != ""
  {
    entries := [];
    for i := 0 to |raws|
      invariant |entries| == i
      invariant forall k :: 0 <= k < i ==>
        && entries[k].index == k + 1
        && entries[k].id == raws[k].id
        && (if raws[k].title.Some? && raws[k].title.value != ""
            then entries[k].title == raws[k].title.value
            else entries[k].title == Untitled(k + 1))
      invariant forall k :: 0 <= k < i ==> entries[k].title != ""
    {
      var title := if raws[i].title.Some? && raws[i].title.value != ""
                   then raws[i].title.value else Untitled(i + 1);
      entries := entries + [Entry(i + 1, raws[i].id, title)];
    }
  }

  /** Entries as `FetchEntries` numbers them: the entry at position k has
      index k + 1, so `entries[ix - 1]` is the entry numbered ix. */
  predicate Numbered(entries: seq<Entry>) {
    forall k :: 0 <= k < |entries| ==> entries[k].index == k + 1
  }

  /** `list(range(a, b + 1))`. */
  function Span(a: int, b: int): (r: seq<int>)
    ensures |r| == if a <= b then b - a + 1 else 0
    ensures forall k :: 0 <= k < |r| ==> r[k] == a + k
    decreases b - a
  {
    if a > b then [] else [a] + Span(a + 1, b)
  }

  /** Every entry number from 1 to n, in increasing order. */
  lemma SpanSorted(n: int)
    ensures StrictlyIncreasing(Span(1, n)) && Within(Span(1, n), n)
  {
  }

  /** What `main` has once a playlist selection is made. */
  datatype Plan = Plan(
    indices: seq<int>,             // playlist_indices
    playlistItems: Option<string>, // opts["playlist_items"], when set
    urls: seq<string>,             // playlist_urls
    trackSeq: seq<int>,            // playlist_seq
    album: Option<string>)         // album

  /** Lines 627-636: a non-blank selection is parsed and also passed on as
      `playlist_items`; a blank one selects every entry. The watch URL of
      every selected entry is collected in selection order and the track
      sequence numbers them from 1. The album is read from the first entry,
      which raises `IndexError` for an empty playlist; the entries built by
      `FetchEntries` carry no `playlist_title`, so the album is always
      `None`. */
  method PlanPlaylist(entries: seq<Entry>, sel: string) returns (r: Result<Plan>)
    requires Numbered(entries)
    ensures r.Failure? <==> entries == []
    ensures r.Failure? ==> r.error == "list index out of range"
    ensures r.Success? ==>
      var p := r.value;
      && (Strip(sel) != "" ==> p.indices == ParsedSelection(sel, |entries|)
                               && p.playlistItems == Some(ItemsString(p.indices)))
      && (Strip(sel) == "" ==> p.indices == Span(1, |entries|) && p.playlistItems == None)
      && (p.playlistItems.Some? ==> ParsedSelection(p.playlistItems.value, |entries|) == p.indices)
      && StrictlyIncreasing(p.indices) && Within(p.indices, |entries|)
      && |p.urls| == |p.indices|
      && (forall k :: 0 <= k < |p.urls| ==>
            p.urls[k] == WatchUrl(entries[p.indices[k] - 1].id)
            && entries[p.indices[k] - 1].index == p.indices[k])
      && p.trackSeq == Span(1, |p.urls|)
      && p.album == None
  {
    var n := |entries|;
    var indices: seq<int>;
    var items: Option<string> := None;
    if Strip(sel) != "" {
      indices := ParseSelection(sel, n);
      items := Some(ItemsString(indices));
      ItemsStringRoundTrip(indices, n);
    } else {
      indices := Span(1, n);
      SpanSorted(n);
    }
    var urls := CollectUrls(entries, indices);
    var trackSeq := Span(1, |urls|);
    if n == 0 {
      return Failure("list index out of range");
    }
    r := Success(Plan(indices, items, urls, trackSeq, None));
  }

  /** The loop of lines 630-632: the watch URL of each selected entry, in
      selection order. */
  method CollectUrls(entries: seq<Entry>, indices: seq<int>) returns (urls: seq<string>)
    requires Within(indices, |entries|)
    ensures |urls| == |indices|
    ensures forall k :: 0 <= k < |urls| ==> urls[k] == WatchUrl(entries[indices[k] - 1].id)
  {
    urls := [];
    for j := 0 to |indices|
      invariant |urls| == j
      invariant forall k :: 0 <= k < j ==> urls[k] == WatchUrl(entries[indices[k] - 1].id)
    {
      var entry := entries[indices[j] - 1];
      urls := urls + [WatchUrl(entry.id)];
    }
  }

  /** The video id read back from every planned URL is the id of the
      selected entry, when that id is made of `[\w-]` characters. */
  lemma PlannedUrlIds(entries: seq<Entry>, indices: seq<int>, urls: seq<string>)
    requires Within(indices, |entries|) && |urls| == |indices|
    requires forall k :: 0 <= k < |urls| ==> urls[k] == WatchUrl(entries[indices[k] - 1].id)
    ensures forall k :: 0 <= k < |urls| ==>
      var id := entries[indices[k] - 1].id;
      id.Some? && id.value != [] && AllIdChars(id.value) ==> VideoId(urls[k]) == id
  {
    forall k | 0 <= k < |urls|
      ensures var id := entries[indices[k] - 1].id;
        id.Some? && id.value != [] && AllIdChars(id.value) ==> VideoId(urls[k]) == id
    {
      var id := entries[indices[k] - 1].id;
      if id.Some? && id.value != [] && AllIdChars(id.value) {
        WatchUrlVideoId(id.value);
      }
    }
  }
}
