/**
 The batch enrichment of `getAudiosFeatures` in src/index.js, as a
 specification: lodash's `chunk(trackIds, 100)`, the comma-joined `ids`
 parameter of each request, and `audio_data.concat(data.audio_features)`
 over the responses in chunk order.  The loop that implements it is
 `Client.Spotify.GetAudiosFeatures`.
 */
module Batch {
  import opened Common

  /** The most ids the audio-features endpoint accepts in one request. */
  const BatchSize := 100

  function Flatten<X>(chunks: seq<seq<X>>): seq<X>
  {
    if chunks == [] then [] else chunks[0] + Flatten(chunks[1..])
  }

  /**
   `chunk(xs, size)`: contiguous groups of `size` elements, the last one
   possibly shorter; no groups for no elements.
   */
  function Chunk<X>(xs: seq<X>, size: nat): (chunks: seq<seq<X>>)
    requires size > 0
    ensures Flatten(chunks) == xs
    ensures forall k :: 0 <= k < |chunks| ==> 0 < |chunks[k]| <= size
    ensures forall k :: 0 <= k < |chunks| - 1 ==> |chunks[k]| == size
    ensures |chunks| == CeilDiv(|xs|, size)
    decreases |xs|
  {
    if xs == [] then
      CeilDivSmall(0, size);
      []
    else if |xs| <= size then
      CeilDivSmall(|xs|, size);
      assert Flatten([xs]) == xs + Flatten([]);
      [xs]
    else
      var rest := Chunk(xs[size..], size);
      CeilDivStep(|xs| - size, size);
      assert ([xs[..size]] + rest)[1..] == rest;
      assert xs[..size] + xs[size..] == xs;
      [xs[..size]] + rest
  }

  /** `ids.join(",")`. */
  function Join(ids: seq<string>): string
  {
    if ids == [] then ""
    else if |ids| == 1 then ids[0]
    else ids[0] + "," + Join(ids[1..])
  }

  /** `s.split(",")`: the pieces between commas; the empty string is one empty piece. */
  function Split(s: string): (parts: seq<string>)
    ensures |parts| >= 1
  {
    if s == [] then [""]
    else if s[0] == ',' then [""] + Split(s[1..])
    else
      var p := Split(s[1..]);
      [[s[0]] + p[0]] + p[1..]
  }

  lemma {:induction false} SplitAfterWord(w: string, rest: string)
    requires ',' !in w
    ensures Split(w + rest) == [w + Split(rest)[0]] + Split(rest)[1..]
    decreases |w|
  {
    if w == [] {
      var p := Split(rest);
      assert w + rest == rest;
      assert w + p[0] == p[0];
      assert [p[0]] + p[1..] == p;
    } else {
      assert (w + rest)[0] == w[0];
      assert (w + rest)[1..] == w[1..] + rest;
      SplitAfterWord(w[1..], rest);
      assert [w[0]] + (w[1..] + Split(rest)[0]) == w + Split(rest)[0];
    }
  }

  /**
   The `ids` parameter of a request names exactly the ids of its chunk:
   splitting it at the commas gives them back, provided no id holds a comma.
   */
  lemma {:induction false} SplitJoin(ids: seq<string>)
    requires ids != []
    requires forall k :: 0 <= k < |ids| ==> ',' !in ids[k]
    ensures Split(Join(ids)) == ids
    decreases |ids|
  {
    if |ids| == 1 {
      SplitAfterWord(ids[0], "");
      assert ids[0] + "" == ids[0];
    } else {
      SplitJoin(ids[1..]);
      assert ids[0] + "," + Join(ids[1..]) == ids[0] + ("," + Join(ids[1..]));
      SplitAfterWord(ids[0], "," + Join(ids[1..]));
      assert ("," + Join(ids[1..]))[1..] == Join(ids[1..]);
      assert ids[0] + "" == ids[0];
      assert [ids[0]] + ids[1..] == ids;
    }
  }

  /** A response of the audio-features endpoint, or the `{}` its `catch` returns. */
  datatype FeaturesResponse<F> = Features(audioFeatures: seq<F>) | NoData

  /**
   `audio_data.concat(data.audio_features)` adds: the elements of the array,
   or a single `undefined` (`None`) when the request failed.
   */
  function Contribution<F>(r: FeaturesResponse<F>): seq<Option<F>>
  {
    match r
    case Features(fs) => seq(|fs|, i requires 0 <= i < |fs| => Some(fs[i]))
    case NoData => [None]
  }

  /** The accumulated `audio_data` after one request per chunk, in chunk order. */
  function Gathered<F>(get: string -> FeaturesResponse<F>, chunks: seq<seq<string>>): seq<Option<F>>
  {
    if chunks == [] then []
    else Gathered(get, chunks[..|chunks| - 1]) + Contribution(get(Join(chunks[|chunks| - 1])))
  }

  /** The number of `undefined` elements in an accumulated result. */
  function Holes<F>(data: seq<Option<F>>): nat
  {
    if data == [] then 0 else (if data[0].None? then 1 else 0) + Holes(data[1..])
  }

  /** The number of chunks whose request failed. */
  function FailedChunks<F>(get: string -> FeaturesResponse<F>, chunks: seq<seq<string>>): nat
  {
    if chunks == [] then 0
    else FailedChunks(get, chunks[..|chunks| - 1]) + (if get(Join(chunks[|chunks| - 1])).NoData? then 1 else 0)
  }

  lemma {:induction false} HolesAppend<F>(a: seq<Option<F>>, b: seq<Option<F>>)
    ensures Holes(a + b) == Holes(a) + Holes(b)
    decreases |a|
  {
    if a == [] {
      assert a + b == b;
    } else {
      assert (a + b)[1..] == a[1..] + b;
      HolesAppend(a[1..], b);
    }
  }

  lemma {:induction false} NoHolesInFeatures<F>(fs: seq<F>, i: nat)
    requires i <= |fs|
    ensures Holes(Contribution(Features(fs))[i..]) == 0
    decreases |fs| - i
  {
    var c := Contribution(Features(fs));
    if i < |fs| {
      assert c[i..][1..] == c[i + 1..];
      NoHolesInFeatures(fs, i + 1);
    }
  }

  /**
   Positions are not re-keyed by id: every failed chunk leaves exactly one
   `undefined` element in the result, and a successful one none.
   */
  lemma {:induction false} FailedChunksLeaveHoles<F>(get: string -> FeaturesResponse<F>, chunks: seq<seq<string>>)
    ensures Holes(Gathered(get, chunks)) == FailedChunks(get, chunks)
    decreases |chunks|
  {
    if chunks != [] {
      var init := chunks[..|chunks| - 1];
      var r := get(Join(chunks[|chunks| - 1]));
      FailedChunksLeaveHoles(get, init);
      HolesAppend(Gathered(get, init), Contribution(r));
      match r
      case Features(fs) =>
        NoHolesInFeatures(fs, 0);
        assert Contribution(r)[0..] == Contribution(r);
      case NoData =>
        var hole: seq<Option<F>> := [None];
        assert Contribution(r) == hole;
        assert hole[1..] == [];
    }
  }

  /** A walk over chunks in which no request failed returns as many features as the responses held. */
  lemma {:induction false} GatheredLength<F>(get: string -> FeaturesResponse<F>, chunks: seq<seq<string>>)
    requires forall k :: 0 <= k < |chunks| ==> get(Join(chunks[k])).Features?
    ensures |Gathered(get, chunks)| == SumLengths(get, chunks)
    decreases |chunks|
  {
    if chunks != [] {
      var init := chunks[..|chunks| - 1];
      assert forall k :: 0 <= k < |init| ==> init[k] == chunks[k];
      GatheredLength(get, init);
    }
  }

  /** The total number of features the responses to `chunks` hold; a failed request counts as none. */
  function SumLengths<F>(get: string -> FeaturesResponse<F>, chunks: seq<seq<string>>): nat
  {
    if chunks == [] then 0
    else SumLengths(get, chunks[..|chunks| - 1]) +
         (match get(Join(chunks[|chunks| - 1])) case Features(fs) => |fs| case NoData => 0)
  }
}
