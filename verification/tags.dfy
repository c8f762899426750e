/** The tag dictionary `write_tags` builds from the engine's metadata and
    the tags it then writes into an mp3 or flac file
    (downloader.py:242-265). The tag library itself is not modelled: what
    the file receives is the map of written tags, and the error the library
    may raise when it opens or saves the file is a parameter. */
module Tags {
  import opened Wrappers
  import opened PyText
  import opened PyValues

  /** The tag names, in the order the dictionary is filled. */
  const TagNames: seq<string> := ["title", "artist", "album", "date", "genre", "tracknumber"]

  /** The formats whose files are tagged. */
  predicate IsTagFormat(fmt: string) {
    fmt == "mp3" || fmt == "flac"
  }

  /** The `idx` argument used as a truth value: present and not zero. */
  predicate HasTrack(idx: Option<int>) {
    idx.Some? && idx.value != 0
  }

  /** The `album` argument as a Python value. */
  function AlbumArg(album: Option<string>): Value {
    if album.Some? then Text(album.value) else Null
  }

  /** `str(info.get("release_year", "") or info.get("upload_date", "")[:4])`:
      slicing an upload date that is neither a string nor a list raises. */
  function DateTag(info: Info): (r: Result<Value>)
    ensures r.Success? ==> r.value.Text?
  {
    var year := Get(info, "release_year", Text(""));
    if Truthy(year) then Success(Text(ToStr(year)))
    else
      match TakeFour(Get(info, "upload_date", Text("")))
      case Success(v) => Success(Text(ToStr(v)))
      case Failure(e) => Failure(e)
  }

  /** The dictionary `tags` of `write_tags`; it exists only if the date
      could be computed. */
  function TagDict(info: Info, idx: Option<int>, album: Option<string>): (r: Result<map<string, Value>>)
    ensures r.Failure? <==> DateTag(info).Failure?
    ensures r.Success? ==>
      r.value.Keys == {"title", "artist", "album", "date", "genre"}
                      + (if HasTrack(idx) then {"tracknumber"} else {})
  {
    match DateTag(info)
    case Failure(e) => Failure(e)
    case Success(date) =>
      var tags := map[
        "title" := Get(info, "title", Text("")),
        "artist" := Or(Get(info, "uploader", Null), Or(Get(info, "channel", Null), Text(""))),
        "album" := Or(AlbumArg(album), Or(Get(info, "album", Null), Or(Get(info, "playlist_title", Null), Text("")))),
        "date" := date,
        "genre" := Get(info, "genre", Text(""))];
      Success(if HasTrack(idx) then tags["tracknumber" := Text(IntToString(idx.value))] else tags)
  }

  /** The tags that reach the file: for mp3 and flac the entries with a
      truthy value, for any other format none. */
  function Written(tags: map<string, Value>, fmt: string): (r: map<string, Value>)
    ensures forall k :: k in r ==> k in tags && r[k] == tags[k] && Truthy(r[k])
    ensures IsTagFormat(fmt) ==> forall k :: k in tags && Truthy(tags[k]) ==> k in r
    ensures !IsTagFormat(fmt) ==> r == map[]
  {
    if IsTagFormat(fmt) then map k | k in tags && Truthy(tags[k]) :: tags[k] else map[]
  }

  /** What `write_tags` ends with: the error of the tag dictionary, else
      the error of the tag library for mp3 and flac, else the written tags. */
  function TagOutcome(info: Info, fmt: string, idx: Option<int>, album: Option<string>, saveError: Option<string>)
    : Result<map<string, Value>>
  {
    var d := TagDict(info, idx, album);
    if d.Failure? then Failure(d.error)
    else if IsTagFormat(fmt) && saveError.Some? then Failure(saveError.value)
    else Success(Written(d.value, fmt))
  }

  /** `write_tags(path, info, fmt, idx, album)`: builds the dictionary and,
      for mp3 and flac, copies each truthy entry into the file's tags, in
      dictionary order, then saves. `saveError` is what the tag library
      raises when it opens or saves the file, if it does. */
  method WriteTags(info: Info, fmt: string, idx: Option<int>, album: Option<string>, saveError: Option<string>)
    returns (r: Result<map<string, Value>>)
    ensures TagDict(info, idx, album).Failure? ==> r == Failure(TagDict(info, idx, album).error)
    ensures TagDict(info, idx, album).Success? && IsTagFormat(fmt) && saveError.Some? ==>
      r == Failure(saveError.value)
    ensures TagDict(info, idx, album).Success? && !(IsTagFormat(fmt) && saveError.Some?) ==>
      r == Success(Written(TagDict(info, idx, album).value, fmt))
    ensures r == TagOutcome(info, fmt, idx, album, saveError)
  {
    var d := TagDict(info, idx, album);
    if d.Failure? {
      return Failure(d.error);
    }
    var tags := d.value;
    if !IsTagFormat(fmt) {
      return Success(map[]);
    }
    assert forall k :: k in tags ==> k in TagNames;
    var audio := CopyTruthy(tags, TagNames);
    if saveError.Some? {
      return Failure(saveError.value);
    }
    assert audio == Written(tags, fmt);
    r := Success(audio);
  }

  /** The loop `for k, v in tags.items(): if v: audio[k] = v`, with the
      dictionary's keys listed in `names`. */
  method CopyTruthy(tags: map<string, Value>, names: seq<string>) returns (audio: map<string, Value>)
    requires forall k :: k in tags ==> k in names
    ensures forall k :: k in audio <==> k in tags && Truthy(tags[k])
    ensures forall k :: k in audio ==> audio[k] == tags[k]
  {
    audio := map[];
    for i := 0 to |names|
      invariant forall k :: k in audio <==> k in names[..i] && k in tags && Truthy(tags[k])
      invariant forall k :: k in audio ==> audio[k] == tags[k]
    {
      var k := names[i];
      if k in tags && Truthy(tags[k]) {
        audio := audio[k := tags[k]];
      }
    }
    assert names[..|names|] == names;
  }

  // ---------------------------------------------------------------------
  // Properties of the tag mapping
  // ---------------------------------------------------------------------

  /** The track number is written exactly when the format is tagged and a
      truthy index is given, and then it is the index in decimal. */
  lemma TrackNumberIff(info: Info, idx: Option<int>, album: Option<string>, fmt: string)
    requires TagDict(info, idx, album).Success?
    ensures var w := Written(TagDict(info, idx, album).value, fmt);
      && ("tracknumber" in w <==> IsTagFormat(fmt) && HasTrack(idx))
      && ("tracknumber" in w ==> w["tracknumber"] == Text(IntToString(idx.value)))
  {
    var tags := TagDict(info, idx, album).value;
    if HasTrack(idx) {
      assert tags["tracknumber"] == Text(IntToString(idx.value));
    }
  }

  /** The album tag is the first truthy one of the album argument, the
      engine's `album` and its `playlist_title`, and is written only when
      one of them is truthy. */
  lemma AlbumFallback(info: Info, idx: Option<int>, album: Option<string>, fmt: string)
    requires TagDict(info, idx, album).Success?
    ensures var a := TagDict(info, idx, album).value["album"];
      var fromInfo := Get(info, "album", Null);
      var fromList := Get(info, "playlist_title", Null);
      && (album.Some? && album.value != "" ==> a == Text(album.value))
      && (!(album.Some? && album.value != "") && Truthy(fromInfo) ==> a == fromInfo)
      && (!(album.Some? && album.value != "") && !Truthy(fromInfo) && Truthy(fromList) ==> a == fromList)
      && ("album" in Written(TagDict(info, idx, album).value, fmt) <==>
            IsTagFormat(fmt) && ((album.Some? && album.value != "") || Truthy(fromInfo) || Truthy(fromList)))
  {
  }

  /** The artist tag is the uploader, else the channel, and is written only
      when one of them is truthy. */
  lemma ArtistFallback(info: Info, idx: Option<int>, album: Option<string>, fmt: string)
    requires TagDict(info, idx, album).Success?
    ensures var a := TagDict(info, idx, album).value["artist"];
      var up := Get(info, "uploader", Null);
      var ch := Get(info, "channel", Null);
      && (Truthy(up) ==> a == up)
      && (!Truthy(up) && Truthy(ch) ==> a == ch)
      && ("artist" in Written(TagDict(info, idx, album).value, fmt) <==>
            IsTagFormat(fmt) && (Truthy(up) || Truthy(ch)))
  {
  }

  /** The date tag is the release year when it is truthy; otherwise the
      first four characters of a string upload date (nothing when there is
      no upload date), and slicing any upload date that is neither a string
      nor a list fails. */
  lemma DateFallback(info: Info)
    ensures var year := Get(info, "release_year", Text(""));
      && (Truthy(year) ==> DateTag(info) == Success(Text(ToStr(year))))
      && (!Truthy(year) && "upload_date" !in info ==> DateTag(info) == Success(Text("")))
      && (!Truthy(year) && "upload_date" in info && info["upload_date"].Text? ==>
            var s := info["upload_date"].s;
            DateTag(info) == Success(Text(if |s| <= 4 then s else s[..4])))
      && (!Truthy(year) && "upload_date" in info && !info["upload_date"].Text? && !info["upload_date"].List? ==>
            DateTag(info).Failure?)
  {
  }

  /** An empty or missing genre is never written. */
  lemma EmptyGenreNotWritten(info: Info, idx: Option<int>, album: Option<string>, fmt: string)
    requires TagDict(info, idx, album).Success?
    requires "genre" !in info || info["genre"] == Text("") || info["genre"] == Null
    ensures "genre" !in Written(TagDict(info, idx, album).value, fmt)
  {
  }

  /** Only the six tag names can ever be written. */
  lemma WrittenNames(info: Info, idx: Option<int>, album: Option<string>, fmt: string)
    requires TagDict(info, idx, album).Success?
    ensures forall k :: k in Written(TagDict(info, idx, album).value, fmt) ==> k in TagNames
  {
  }
}
