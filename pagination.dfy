/**
 The paginated walk shared by `getUserPlaylists`, `getUserAlbums`,
 `getUserLikedSongs`, `getPlaylistTracks` and `getAlbumTracks` in
 src/index.js, as a specification: what the walk requests, in which order,
 and what it returns or raises.  The request helper is an oracle `get` from
 the requested URL to its response; the loops that implement the walk are
 the methods of `Client.Spotify`, proved equal to `Walk` below.
 */
module Pagination {
  import opened Common

  /** A page body: its items, the collection's total size, and the link to the next page (`null` at the end). */
  datatype Page<T> = Page(items: seq<T>, total: nat, next: Option<string>)

  /** What a request helper resolves to: the page body, or the `{}` its `catch` returns. */
  datatype Response<T> = Fetched(page: Page<T>) | Empty

  /** An element of a walk's output array: the formatter's result, or the raw item when no formatter is given. */
  datatype Entry<T, U> = Formatted(value: U) | Raw(item: T)

  /** The observable course of a walk: the URLs requested, in order, and the array returned or the exception raised. */
  datatype Trace<E> = Trace(urls: seq<string>, result: Result<seq<E>>)

  /** The page sizes the code divides `total` by. */
  const UserPageSize := 20
  const TrackPageSize := 100

  /** `link || home`: a missing or empty link requests the endpoint's first page. */
  function Resolve(link: Option<string>, home: string): string
  {
    if Truthy(link) then link.value else home
  }

  /** The item itself, as the formatter argument of a direct walk. */
  function Itself<T>(item: T): Option<T>
  {
    Some(item)
  }

  /**
   One `songs.push(formater ? formater(arg(item)) : item)`: `arg` picks what
   the formatter sees (`item`, or `item.track`, `None` standing for undefined).
   */
  function Emit<T, S, U>(formatter: Option<Option<S> -> Result<U>>, arg: T -> Option<S>, item: T): Result<Entry<T, U>>
  {
    match formatter
    case None => Ok(Raw(item))
    case Some(f) =>
      match f(arg(item))
      case Ok(v) => Ok(Formatted(v))
      case Raised(e) => Raised(e)
  }

  /** The `for (let item of items)` loop over one page: the first item whose formatting raises aborts it. */
  function EmitAll<T, S, U>(formatter: Option<Option<S> -> Result<U>>, arg: T -> Option<S>, items: seq<T>): (r: Result<seq<Entry<T, U>>>)
    ensures r.Ok? <==> forall i :: 0 <= i < |items| ==> Emit(formatter, arg, items[i]).Ok?
    ensures r.Ok? ==> (|r.value| == |items| &&
      forall i :: 0 <= i < |items| ==> Emit(formatter, arg, items[i]) == Ok(r.value[i]))
    ensures r.Raised? ==>
      (exists i :: 0 <= i < |items| && Emit(formatter, arg, items[i]) == Raised(r.error) &&
                   forall j :: 0 <= j < i ==> Emit(formatter, arg, items[j]).Ok?)
    decreases |items|
  {
    if items == [] then Ok([])
    else
      match Emit(formatter, arg, items[0])
      case Raised(e) => Raised(e)
      case Ok(x) =>
        var rest := EmitAll(formatter, arg, items[1..]);
        assert forall i :: 1 <= i < |items| ==> items[i] == items[1..][i - 1];
        match rest
        case Raised(e) => Raised(e)
        case Ok(xs) => Ok([x] + xs)
  }

  /** Appending the output of a later step to an earlier one; an exception wins. */
  function Concat<E>(first: Result<seq<E>>, second: Result<seq<E>>): Result<seq<E>>
  {
    match first
    case Raised(e) => first
    case Ok(xs) =>
      match second
      case Raised(e) => second
      case Ok(ys) => Ok(xs + ys)
  }

  lemma ConcatAssoc<E>(a: seq<E>, b: seq<E>, r: Result<seq<E>>)
    ensures Concat(Ok(a), Concat(Ok(b), r)) == Concat(Ok(a + b), r)
  {
    if r.Ok? {
      assert a + (b + r.value) == (a + b) + r.value;
    }
  }

  /** `if (pages) { if (i > pages) break; }`: a cap of `null` or `0` never breaks. */
  predicate Breaks(cap: Option<int>, i: int)
  {
    cap.Some? && cap.value != 0 && i > cap.value
  }

  /**
   The `for (let i = 2; i <= total_pages; i++)` loop from iteration `i` on,
   with the cursor `next` the previous response returned.
   */
  function Rest<T, S, U>(get: string -> Response<T>, home: string, next: Option<string>, i: nat, totalPages: nat,
                         cap: Option<int>, formatter: Option<Option<S> -> Result<U>>, arg: T -> Option<S>): Trace<Entry<T, U>>
    decreases totalPages + 1 - i
  {
    if i > totalPages || Breaks(cap, i) then Trace([], Ok([]))
    else
      var url := Resolve(next, home);
      match get(url)
      case Empty => Trace([url], Raised(NotIterable("items")))
      case Fetched(p) =>
        match EmitAll(formatter, arg, p.items)
        case Raised(e) => Trace([url], Raised(e))
        case Ok(xs) =>
          var t := Rest(get, home, p.next, i + 1, totalPages, cap, formatter, arg);
          Trace([url] + t.urls, Concat(Ok(xs), t.result))
  }

  /**
   A whole walk: request the first page with no cursor, format its items with
   `first`, then walk pages 2 to `ceil(total / pageSize)` formatting with `later`.
   */
  function Walk<T, S, U>(get: string -> Response<T>, home: string, pageSize: nat, cap: Option<int>,
                         formatter: Option<Option<S> -> Result<U>>, first: T -> Option<S>, later: T -> Option<S>): Trace<Entry<T, U>>
    requires pageSize > 0
  {
    match get(home)
    case Empty => Trace([home], Raised(NotIterable("items")))
    case Fetched(p) =>
      match EmitAll(formatter, first, p.items)
      case Raised(e) => Trace([home], Raised(e))
      case Ok(xs) =>
        var t := Rest(get, home, p.next, 2, CeilDiv(p.total, pageSize), cap, formatter, later);
        Trace([home] + t.urls, Concat(Ok(xs), t.result))
  }

  /** One step of `Rest`: a page fetched and formatted whole contributes its url and entries, then the walk goes on from its cursor. */
  lemma RestStep<T, S, U>(get: string -> Response<T>, home: string, next: Option<string>, i: nat, totalPages: nat,
                          cap: Option<int>, formatter: Option<Option<S> -> Result<U>>, arg: T -> Option<S>)
    requires i <= totalPages && !Breaks(cap, i)
    requires get(Resolve(next, home)).Fetched?
    requires EmitAll(formatter, arg, get(Resolve(next, home)).page.items).Ok?
    ensures var p := get(Resolve(next, home)).page;
      var t := Rest(get, home, p.next, i + 1, totalPages, cap, formatter, arg);
      Rest(get, home, next, i, totalPages, cap, formatter, arg)
        == Trace([Resolve(next, home)] + t.urls, Concat(EmitAll(formatter, arg, p.items), t.result))
  {
  }

  // ---------------------------------------------------------------------
  // Request count

  function Min(a: int, b: int): int { if a <= b then a else b }
  function Max(a: int, b: int): int { if a >= b then a else b }

  /**
   The number of page requests a walk that raises nothing makes: one, plus one
   per loop iteration before the cap breaks the loop.
   */
  function Requests(totalPages: nat, cap: Option<int>): nat
  {
    if cap.Some? && cap.value != 0 then Min(Max(1, totalPages), Max(1, cap.value))
    else Max(1, totalPages)
  }

  /** The loop iterations `i..totalPages` that are not cut off by the cap. */
  function Iterations(i: nat, totalPages: nat, cap: Option<int>): nat
  {
    var last := if cap.Some? && cap.value != 0 then Min(totalPages, cap.value) else totalPages;
    if last < i then 0 else last - i + 1
  }

  lemma {:induction false} RestCount<T, S, U>(get: string -> Response<T>, home: string, next: Option<string>, i: nat,
                                              totalPages: nat, cap: Option<int>,
                                              formatter: Option<Option<S> -> Result<U>>, arg: T -> Option<S>)
    ensures var t := Rest(get, home, next, i, totalPages, cap, formatter, arg);
      && |t.urls| <= Iterations(i, totalPages, cap)
      && (t.result.Ok? ==> |t.urls| == Iterations(i, totalPages, cap))
    decreases totalPages + 1 - i
  {
    if i > totalPages || Breaks(cap, i) {
    } else {
      var url := Resolve(next, home);
      if get(url).Fetched? && EmitAll(formatter, arg, get(url).page.items).Ok? {
        RestCount(get, home, get(url).page.next, i + 1, totalPages, cap, formatter, arg);
      }
    }
  }

  /**
   A walk that raises nothing makes exactly `Requests(ceil(total / pageSize), cap)`
   requests: one when there is at most one page, the page count otherwise, and
   never more than a truthy cap (or one, when the cap is below one).  A walk
   that raises has made no more than that.
   */
  lemma RequestCount<T, S, U>(get: string -> Response<T>, home: string, pageSize: nat, cap: Option<int>,
                              formatter: Option<Option<S> -> Result<U>>, first: T -> Option<S>, later: T -> Option<S>)
    requires pageSize > 0
    ensures var t := Walk(get, home, pageSize, cap, formatter, first, later);
      && (t.result.Ok? ==> get(home).Fetched? &&
                           |t.urls| == Requests(CeilDiv(get(home).page.total, pageSize), cap))
      && (get(home).Fetched? ==> |t.urls| <= Requests(CeilDiv(get(home).page.total, pageSize), cap))
      && 1 <= |t.urls|
  {
    if get(home).Fetched? {
      var p := get(home).page;
      RestCount(get, home, p.next, 2, CeilDiv(p.total, pageSize), cap, formatter, later);
    }
  }

  // ---------------------------------------------------------------------
  // Cursor chaining

  /**
   `urls` follow the cursors: the first is `start || home`, and each later one
   is the `next` link (or `home`, when that link is null) of the response to
   the one before it, which was a page.
   */
  ghost predicate Chained<T>(get: string -> Response<T>, home: string, start: Option<string>, urls: seq<string>)
  {
    && (|urls| > 0 ==> urls[0] == Resolve(start, home))
    && forall k :: 0 <= k < |urls| - 1 ==>
         get(urls[k]).Fetched? && urls[k + 1] == Resolve(get(urls[k]).page.next, home)
  }

  lemma {:induction false} RestChained<T, S, U>(get: string -> Response<T>, home: string, next: Option<string>, i: nat,
                                                totalPages: nat, cap: Option<int>,
                                                formatter: Option<Option<S> -> Result<U>>, arg: T -> Option<S>)
    ensures Chained(get, home, next, Rest(get, home, next, i, totalPages, cap, formatter, arg).urls)
    decreases totalPages + 1 - i
  {
    if i > totalPages || Breaks(cap, i) {
    } else {
      var url := Resolve(next, home);
      if get(url).Fetched? && EmitAll(formatter, arg, get(url).page.items).Ok? {
        var p := get(url).page;
        RestChained(get, home, p.next, i + 1, totalPages, cap, formatter, arg);
        var t := Rest(get, home, p.next, i + 1, totalPages, cap, formatter, arg);
        var urls := [url] + t.urls;
        forall k | 0 <= k < |urls| - 1
          ensures get(urls[k]).Fetched? && urls[k + 1] == Resolve(get(urls[k]).page.next, home)
        {
          if k > 0 {
            assert urls[k] == t.urls[k - 1] && urls[k + 1] == t.urls[k];
          }
        }
      }
    }
  }

  /**
   The first request of a walk has no cursor, and request k+1 uses the `next`
   link returned by request k; every request but the last got a page.
   */
  lemma CursorChain<T, S, U>(get: string -> Response<T>, home: string, pageSize: nat, cap: Option<int>,
                             formatter: Option<Option<S> -> Result<U>>, first: T -> Option<S>, later: T -> Option<S>)
    requires pageSize > 0
    ensures Chained(get, home, None, Walk(get, home, pageSize, cap, formatter, first, later).urls)
  {
    var t := Walk(get, home, pageSize, cap, formatter, first, later);
    if get(home).Fetched? && EmitAll(formatter, first, get(home).page.items).Ok? {
      var p := get(home).page;
      var r := Rest(get, home, p.next, 2, CeilDiv(p.total, pageSize), cap, formatter, later);
      RestChained(get, home, p.next, 2, CeilDiv(p.total, pageSize), cap, formatter, later);
      forall k | 0 <= k < |t.urls| - 1
        ensures get(t.urls[k]).Fetched? && t.urls[k + 1] == Resolve(get(t.urls[k]).page.next, home)
      {
        if k > 0 {
          assert t.urls[k] == r.urls[k - 1] && t.urls[k + 1] == r.urls[k];
        }
      }
    }
  }

  // ---------------------------------------------------------------------
  // Output order and failure

  /** The items of the responses to `urls`, page after page; a failed request contributes none. */
  function Items<T>(get: string -> Response<T>, urls: seq<string>): seq<T>
  {
    if urls == [] then []
    else (match get(urls[0]) case Fetched(p) => p.items case Empty => []) + Items(get, urls[1..])
  }

  lemma {:induction false} EmitAllAppend<T, S, U>(formatter: Option<Option<S> -> Result<U>>, arg: T -> Option<S>, a: seq<T>, b: seq<T>)
    ensures EmitAll(formatter, arg, a + b) == Concat(EmitAll(formatter, arg, a), EmitAll(formatter, arg, b))
    decreases |a|
  {
    if a == [] {
      assert a + b == b;
      if EmitAll(formatter, arg, b).Ok? {
        assert [] + EmitAll(formatter, arg, b).value == EmitAll(formatter, arg, b).value;
      }
    } else {
      assert (a + b)[1..] == a[1..] + b;
      EmitAllAppend(formatter, arg, a[1..], b);
      var e := Emit(formatter, arg, a[0]);
      if e.Ok? && EmitAll(formatter, arg, a[1..]).Ok? && EmitAll(formatter, arg, b).Ok? {
        ConcatAssoc([e.value], EmitAll(formatter, arg, a[1..]).value, EmitAll(formatter, arg, b));
      }
    }
  }

  lemma {:induction false} RestOrder<T, S, U>(get: string -> Response<T>, home: string, next: Option<string>, i: nat,
                                              totalPages: nat, cap: Option<int>,
                                              formatter: Option<Option<S> -> Result<U>>, arg: T -> Option<S>)
    ensures var t := Rest(get, home, next, i, totalPages, cap, formatter, arg);
      t.result.Ok? ==> t.result == EmitAll(formatter, arg, Items(get, t.urls))
    decreases totalPages + 1 - i
  {
    var t := Rest(get, home, next, i, totalPages, cap, formatter, arg);
    if i > totalPages || Breaks(cap, i) {
    } else {
      var url := Resolve(next, home);
      if get(url).Fetched? && EmitAll(formatter, arg, get(url).page.items).Ok? {
        var p := get(url).page;
        var r := Rest(get, home, p.next, i + 1, totalPages, cap, formatter, arg);
        RestOrder(get, home, p.next, i + 1, totalPages, cap, formatter, arg);
        assert t.urls == [url] + r.urls;
        assert ([url] + r.urls)[1..] == r.urls;
        assert Items(get, t.urls) == p.items + Items(get, r.urls);
        EmitAllAppend(formatter, arg, p.items, Items(get, r.urls));
      }
    }
  }

  /**
   A walk that raises nothing returns the in-order concatenation of the
   formatted items of every page it fetched: the first page's formatted with
   `first`, the later pages' with `later`.
   */
  lemma OutputOrder<T, S, U>(get: string -> Response<T>, home: string, pageSize: nat, cap: Option<int>,
                             formatter: Option<Option<S> -> Result<U>>, first: T -> Option<S>, later: T -> Option<S>)
    requires pageSize > 0
    ensures var t := Walk(get, home, pageSize, cap, formatter, first, later);
      t.result.Ok? ==>
        t.result == Concat(EmitAll(formatter, first, Items(get, t.urls[..1])),
                           EmitAll(formatter, later, Items(get, t.urls[1..])))
  {
    var t := Walk(get, home, pageSize, cap, formatter, first, later);
    if get(home).Fetched? && EmitAll(formatter, first, get(home).page.items).Ok? {
      var p := get(home).page;
      var r := Rest(get, home, p.next, 2, CeilDiv(p.total, pageSize), cap, formatter, later);
      RestOrder(get, home, p.next, 2, CeilDiv(p.total, pageSize), cap, formatter, later);
      assert t.urls[..1] == [home];
      assert t.urls[1..] == r.urls;
      assert [home][1..] == [];
      assert Items(get, [home]) == p.items + Items(get, []);
      assert Items(get, [home]) == p.items;
    }
  }

  /** With one formatter argument for every page, the output is that formatting of all fetched items, in order. */
  lemma UniformOutput<T, S, U>(get: string -> Response<T>, home: string, pageSize: nat, cap: Option<int>,
                               formatter: Option<Option<S> -> Result<U>>, arg: T -> Option<S>)
    requires pageSize > 0
    ensures var t := Walk(get, home, pageSize, cap, formatter, arg, arg);
      t.result.Ok? ==> t.result == EmitAll(formatter, arg, Items(get, t.urls))
  {
    var t := Walk(get, home, pageSize, cap, formatter, arg, arg);
    OutputOrder(get, home, pageSize, cap, formatter, arg, arg);
    if t.result.Ok? {
      ItemsSplit(get, t.urls[..1], t.urls[1..]);
      assert t.urls[..1] + t.urls[1..] == t.urls;
      EmitAllAppend(formatter, arg, Items(get, t.urls[..1]), Items(get, t.urls[1..]));
    }
  }

  lemma {:induction false} ItemsSplit<T>(get: string -> Response<T>, a: seq<string>, b: seq<string>)
    ensures Items(get, a + b) == Items(get, a) + Items(get, b)
    decreases |a|
  {
    if a == [] {
      assert a + b == b;
    } else {
      assert (a + b)[1..] == a[1..] + b;
      ItemsSplit(get, a[1..], b);
    }
  }

  /** Without a formatter the output is the fetched items themselves. */
  lemma {:induction false} UnformattedItems<T, S, U>(arg: T -> Option<S>, items: seq<T>)
    ensures EmitAll<T, S, U>(None, arg, items) == Ok(seq(|items|, i requires 0 <= i < |items| => Raw(items[i])))
  {
    var r := EmitAll<T, S, U>(None, arg, items);
    assert r.Ok? by {
      forall i | 0 <= i < |items| ensures Emit<T, S, U>(None, arg, items[i]).Ok? { }
    }
    var raws := seq(|items|, i requires 0 <= i < |items| => Raw(items[i]));
    assert |r.value| == |raws|;
    forall i | 0 <= i < |items| ensures r.value[i] == raws[i] {
      assert Emit<T, S, U>(None, arg, items[i]) == Ok(r.value[i]);
    }
    assert r.value == raws;
  }

  lemma {:induction false} RestLastFailed<T, S, U>(get: string -> Response<T>, home: string, next: Option<string>, i: nat,
                                                   totalPages: nat, cap: Option<int>,
                                                   formatter: Option<Option<S> -> Result<U>>, arg: T -> Option<S>)
    ensures var t := Rest(get, home, next, i, totalPages, cap, formatter, arg);
      |t.urls| > 0 && get(t.urls[|t.urls| - 1]).Empty? ==> t.result == Raised(NotIterable("items"))
    decreases totalPages + 1 - i
  {
    if i > totalPages || Breaks(cap, i) {
    } else {
      var url := Resolve(next, home);
      if get(url).Fetched? && EmitAll(formatter, arg, get(url).page.items).Ok? {
        var p := get(url).page;
        var r := Rest(get, home, p.next, i + 1, totalPages, cap, formatter, arg);
        RestLastFailed(get, home, p.next, i + 1, totalPages, cap, formatter, arg);
        if |r.urls| > 0 {
          assert ([url] + r.urls)[|r.urls|] == r.urls[|r.urls| - 1];
        }
      }
    }
  }

  /**
   A failed page request aborts the walk: it is the last request made, and the
   walk raises "items is not iterable" instead of returning a partial list.
   */
  lemma FailedPageAborts<T, S, U>(get: string -> Response<T>, home: string, pageSize: nat, cap: Option<int>,
                                  formatter: Option<Option<S> -> Result<U>>, first: T -> Option<S>, later: T -> Option<S>,
                                  k: nat)
    requires pageSize > 0
    requires var t := Walk(get, home, pageSize, cap, formatter, first, later);
      k < |t.urls| && get(t.urls[k]).Empty?
    ensures var t := Walk(get, home, pageSize, cap, formatter, first, later);
      k == |t.urls| - 1 && t.result == Raised(NotIterable("items"))
  {
    var t := Walk(get, home, pageSize, cap, formatter, first, later);
    CursorChain(get, home, pageSize, cap, formatter, first, later);
    if get(home).Fetched? && EmitAll(formatter, first, get(home).page.items).Ok? {
      var p := get(home).page;
      var r := Rest(get, home, p.next, 2, CeilDiv(p.total, pageSize), cap, formatter, later);
      RestLastFailed(get, home, p.next, 2, CeilDiv(p.total, pageSize), cap, formatter, later);
      assert t.urls == [home] + r.urls;
      if |r.urls| > 0 {
        assert t.urls[|r.urls|] == r.urls[|r.urls| - 1];
      }
    }
  }
}
