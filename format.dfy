/**
 The record formatter of utils/index.js: `formatSongData` maps a raw track
 object from the provider to the canonical track record.  A raw track is
 modelled with the fields the formatter reads; a field JavaScript may see as
 `undefined` is an `Option`.
 */
module Format {
  import opened Common

  /** `item.id`: a string, `null` (the "no longer available" marker) or `undefined`. */
  datatype TrackId = NullId | UndefinedId | Id(value: string)

  /** An entry of `album.images`; the provider may report a `null` height. */
  datatype Image = Image(height: Option<int>, url: string)

  datatype Album = Album(name: string, images: seq<Image>, releaseDate: string)

  datatype Artist = Artist(name: string)

  /** The fields of a raw track object that the formatter reads. */
  datatype RawTrack = RawTrack(
    id: TrackId,
    name: Option<string>,
    artists: Option<seq<Artist>>,
    discNumber: Option<int>,
    trackNumber: Option<int>,
    album: Option<Album>)

  /** The canonical record; a `None` field is an `undefined` or `null` property. */
  datatype TrackRecord = TrackRecord(
    album: Option<string>,
    artists: Option<seq<string>>,
    discNumber: Option<int>,
    title: Option<string>,
    trackNumber: Option<int>,
    coverArt: Option<string>,
    year: Option<string>)

  /** `{ title: "", artists: [""] }`: every other property is undefined. */
  const Placeholder := TrackRecord(None, Some([""]), None, Some(""), None, None, None)

  /** The height of the cover image the formatter looks for. */
  const CoverHeight := 640

  /** `artists.reduce((a, c) => { a.push(c.name); return a; }, acc)`. */
  function PushNames(acc: seq<string>, artists: seq<Artist>): (names: seq<string>)
    ensures |names| == |acc| + |artists|
    ensures names[..|acc|] == acc
    ensures forall i :: 0 <= i < |artists| ==> names[|acc| + i] == artists[i].name
    decreases |artists|
  {
    if artists == [] then acc
    else PushNames(acc + [artists[0].name], artists[1..])
  }

  /** The index `images.find(i => i.height === h)` stops at; `|images|` when nothing matches. */
  function FindHeight(images: seq<Image>, h: int): (k: nat)
    ensures k <= |images|
    ensures forall j :: 0 <= j < k ==> images[j].height != Some(h)
    ensures k < |images| ==> images[k].height == Some(h)
  {
    if images == [] then 0
    else if images[0].height == Some(h) then 0
    else 1 + FindHeight(images[1..], h)
  }

  /** `s.split("-")[0]`: the part of `s` before its first dash. */
  function BeforeDash(s: string): (r: string)
    ensures r <= s
    ensures '-' !in r
    ensures r == s || s[|r|] == '-'
  {
    if s == [] || s[0] == '-' then []
    else [s[0]] + BeforeDash(s[1..])
  }

  /**
   `formatSongData(item)`: the placeholder for a track whose id is `null`;
   otherwise each property of the record read from the raw track.  Reading
   `item.id` of an undefined item raises, and so does reading `.url` when the
   album has no 640-pixel image.
   */
  function FormatSongData(item: Option<RawTrack>): (r: Result<TrackRecord>)
    ensures item.None? ==> r == Raised(ReadOfUndefined("id"))
    ensures item.Some? && item.value.id == NullId ==> r == Ok(Placeholder)
    ensures item.Some? && item.value.id != NullId ==>
      (r.Raised? <==> item.value.album.Some? &&
                      forall j :: 0 <= j < |item.value.album.value.images| ==>
                        item.value.album.value.images[j].height != Some(CoverHeight))
    ensures item.Some? && item.value.id != NullId && r.Ok? ==>
      && r.value.title == item.value.name
      && r.value.discNumber == item.value.discNumber
      && r.value.trackNumber == item.value.trackNumber
      && (item.value.artists.None? <==> r.value.artists.None?)
      && (item.value.artists.Some? ==>
            |r.value.artists.value| == |item.value.artists.value| &&
            forall i :: 0 <= i < |item.value.artists.value| ==>
              r.value.artists.value[i] == item.value.artists.value[i].name)
      && (item.value.album.None? <==> r.value.album.None?)
      && (item.value.album.None? ==> r.value.coverArt.None? && r.value.year.None?)
      && (item.value.album.Some? ==>
            var a := item.value.album.value;
            && r.value.album == Some(a.name)
            && r.value.coverArt.Some?
            && (exists j :: 0 <= j < |a.images| && a.images[j].height == Some(CoverHeight) &&
                            a.images[j].url == r.value.coverArt.value &&
                            forall j' :: 0 <= j' < j ==> a.images[j'].height != Some(CoverHeight))
            && r.value.year.Some? && r.value.year.value <= a.releaseDate
            && '-' !in r.value.year.value
            && (r.value.year.value == a.releaseDate || a.releaseDate[|r.value.year.value|] == '-'))
  {
    match item
    case None => Raised(ReadOfUndefined("id"))
    case Some(t) =>
      if t.id == NullId then Ok(Placeholder)
      else
        var artists := match t.artists
          case None => None
          case Some(list) => Some(PushNames([], list));
        match t.album
        case None =>
          Ok(TrackRecord(None, artists, t.discNumber, t.name, t.trackNumber, None, None))
        case Some(a) =>
          var k := FindHeight(a.images, CoverHeight);
          if k == |a.images| then Raised(ReadOfUndefined("url"))
          else
            Ok(TrackRecord(Some(a.name), artists, t.discNumber, t.name, t.trackNumber,
                           Some(a.images[k].url), Some(BeforeDash(a.releaseDate))))
  }
}
