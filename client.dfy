/**
 The `Spotify` client class of src/index.js.  It holds the bearer token, the
 shared HTTP client's default `Authorization` header and the exchanges made
 with the token endpoint and the browser; its methods are the two authorize
 flows, the track search, the five paginated walks and the audio-feature
 batches.  Every network call goes through an oracle parameter: `get` for a
 resource GET (keyed by the requested URL), `endpoint` for the token POST,
 `browser` for the consent flow that yields an authorization code.
 */
module Client {
  import opened Common
  import opened Format
  import opened Cache
  import opened Pagination
  import opened Batch
  import opened Auth

  /** A call the client makes outside itself during authorization. */
  datatype Exchange =
    | Consent(clientId: string, scope: string)   // `openBrowserForAuth(clientID, scope)`
    | TokenPost(authKey: string, form: Form)      // POST to the token endpoint

  /** A response of the search endpoint, or the exception that sends the method to its `catch`. */
  datatype SearchResponse = Tracks(items: seq<RawTrack>) | SearchFailed

  /** What `searchTrack` resolves to; `NotFound` is `undefined`. */
  datatype SearchResult = Record(record: TrackRecord) | Item(item: RawTrack) | NotFound

  const UserPlaylistsPath := "/me/playlists"
  const UserAlbumsPath := "/me/albums"
  const UserTracksPath := "/me/tracks"

  function PlaylistPath(playlistId: string): string
  {
    "/playlists/" + playlistId + "/tracks"
  }

  function AlbumPath(albumId: string): string
  {
    "/albums/" + albumId + "/tracks"
  }

  /** The `q` parameter of a search. */
  function SearchQuery(title: string, artist: string): string
  {
    "track:" + title + " artist:" + artist
  }

  function Bearer(accessToken: string): string
  {
    "Bearer " + accessToken
  }

  /**
   `searchTrack(title, artist, formatted)`: the first track found, formatted
   or raw; `undefined` when the request fails, when nothing is found, or when
   formatting raises (the `catch` swallows the error).
   */
  function SearchTrack(title: string, artist: string, formatted: bool, search: string -> SearchResponse): (r: SearchResult)
    ensures search(SearchQuery(title, artist)).SearchFailed? ==> r == NotFound
    ensures search(SearchQuery(title, artist)).Tracks? && search(SearchQuery(title, artist)).items == [] ==> r == NotFound
    ensures formatted ==> !r.Item?
    ensures !formatted ==> !r.Record?
    ensures var resp := search(SearchQuery(title, artist));
      resp.Tracks? && resp.items != [] ==>
        && (!formatted ==> r == Item(resp.items[0]))
        && (formatted ==> (r.Record? <==> FormatSongData(Some(resp.items[0])).Ok?))
        && (formatted && r.Record? ==> Ok(r.record) == FormatSongData(Some(resp.items[0])))
  {
    match search(SearchQuery(title, artist))
    case SearchFailed => NotFound
    case Tracks(items) =>
      var first: Option<RawTrack> := if items == [] then None else Some(items[0]);
      if formatted then
        match FormatSongData(first)
        case Ok(record) => Record(record)
        case Raised(_) => NotFound
      else
        match first
        case None => NotFound
        case Some(t) => Item(t)
  }

  /**
   The inner `for (let item of items) songs.push(…)` loop: push each item's
   entry onto `songs`, raising with the first item whose formatting raises.
   */
  method PushAll<T, S, U>(songs: seq<Entry<T, U>>, formatter: Option<Option<S> -> Result<U>>, arg: T -> Option<S>, items: seq<T>)
    returns (r: Result<seq<Entry<T, U>>>)
    ensures r == Concat(Ok(songs), EmitAll(formatter, arg, items))
  {
    var out := songs;
    var j := 0;
    while j < |items|
      invariant 0 <= j <= |items|
      invariant Concat(Ok(songs), EmitAll(formatter, arg, items)) == Concat(Ok(out), EmitAll(formatter, arg, items[j..]))
    {
      assert items[j..][0] == items[j] && items[j..][1..] == items[j + 1..];
      var e := Emit(formatter, arg, items[j]);
      if e.Raised? {
        return Raised(e.error);
      }
      ConcatAssoc(out, [e.value], EmitAll(formatter, arg, items[j + 1..]));
      out := out + [e.value];
      j := j + 1;
    }
    assert items[j..] == [];
    assert out + [] == out;
    return Ok(out);
  }

  /**
   The `for (let i = 2; i <= total_pages; i++)` loop of a walk: request the
   page the cursor names (the first page again when it is `null`), push its
   entries, and stop once the cap is passed, a request fails or an item's
   formatting raises.
   */
  method FollowPages<T, S, U>(get: string -> Response<T>, home: string, next: Option<string>, totalPages: nat,
                              cap: Option<int>, formatter: Option<Option<S> -> Result<U>>, later: T -> Option<S>,
                              urls: seq<string>, songs: seq<Entry<T, U>>)
    returns (t: Trace<Entry<T, U>>)
    ensures var rest := Rest(get, home, next, 2, totalPages, cap, formatter, later);
      t == Trace(urls + rest.urls, Concat(Ok(songs), rest.result))
  {
    var cursor, seen, out, i := next, urls, songs, 2;
    ghost var goal := Rest(get, home, next, 2, totalPages, cap, formatter, later);
    while i <= totalPages
      invariant 2 <= i
      invariant var rest := Rest(get, home, cursor, i, totalPages, cap, formatter, later);
        Trace(urls + goal.urls, Concat(Ok(songs), goal.result)) == Trace(seen + rest.urls, Concat(Ok(out), rest.result))
      decreases totalPages + 1 - i
    {
      if Breaks(cap, i) {
        break;
      }
      var url := Resolve(cursor, home);
      var page := get(url);
      if page.Empty? {
        return Trace(seen + [url], Raised(NotIterable("items")));
      }
      var pushed := PushAll(out, formatter, later, page.page.items);
      if pushed.Raised? {
        return Trace(seen + [url], pushed);
      }
      RestStep(get, home, cursor, i, totalPages, cap, formatter, later);
      ghost var rest := Rest(get, home, page.page.next, i + 1, totalPages, cap, formatter, later);
      ConcatAssoc(out, EmitAll(formatter, later, page.page.items).value, rest.result);
      assert (seen + [url]) + rest.urls == seen + ([url] + rest.urls);
      seen, out, cursor, i := seen + [url], pushed.value, page.page.next, i + 1;
    }
    assert seen + [] == seen && out + [] == out;
    return Trace(seen, Ok(out));
  }

  /** Album-track objects have no `track` property: `item.track` is undefined. */
  function NoTrack(item: RawTrack): Option<RawTrack>
  {
    None
  }

  class Spotify {
    const clientId: string
    const clientSecret: string
    /** The `./cache.json` file the refresh token is kept in. */
    const cache: CacheFile
    /** `this.token`. */
    var token: Option<string>
    /** `this.axios.defaults.headers.common["Authorization"]`. */
    var authorization: Option<string>
    /** The consent flows and token requests made so far, in order. */
    var exchanges: seq<Exchange>

    /** The header the shared client sends always carries the current token. */
    ghost predicate Valid()
      reads this
    {
      match token
      case None => authorization.None?
      case Some(t) => authorization == Some(Bearer(t))
    }

    /** The Basic-auth credential sent to the token endpoint (before base64 encoding). */
    function AuthKey(): string
    {
      clientId + ":" + clientSecret
    }

    constructor (clientId: string, clientSecret: string, cache: CacheFile)
      ensures Valid()
      ensures this.clientId == clientId && this.clientSecret == clientSecret && this.cache == cache
      ensures token.None? && exchanges == []
    {
      this.clientId := clientId;
      this.clientSecret := clientSecret;
      this.cache := cache;
      token := None;
      authorization := None;
      exchanges := [];
    }

    /** Install a granted access token as the shared client's credential. */
    method Install(accessToken: string)
      modifies this
      ensures Valid()
      ensures token == Some(accessToken) && exchanges == old(exchanges)
    {
      authorization := Some(Bearer(accessToken));
      token := Some(accessToken);
    }

    /**
     `authorize()`: the client-credentials grant.  The token and header change
     only when the endpoint grants a token; a rejection leaves both as they were.
     */
    method Authorize(endpoint: (string, Form) -> TokenResponse)
      requires Valid()
      modifies this
      ensures Valid()
      ensures exchanges == old(exchanges) + [TokenPost(AuthKey(), Encode(ClientCredentials))]
      ensures match endpoint(AuthKey(), Encode(ClientCredentials))
              case Granted(accessToken, _) => token == Some(accessToken)
              case Rejected => token == old(token) && authorization == old(authorization)
    {
      var form := [("grant_type", "client_credentials")];
      exchanges := exchanges + [TokenPost(AuthKey(), form)];
      match endpoint(AuthKey(), form)
      case Granted(accessToken, _) =>
        Install(accessToken);
      case Rejected =>
    }

    /**
     `authorize_user(scope)`: read the cached refresh token; without a truthy
     one, ask the browser for consent and a code; post the grant the two
     select; on success install the access token and cache a returned refresh
     token.  The cache write raising is caught after the token is installed.
     */
    method AuthorizeUser(scope: string, browser: (string, string) -> Option<string>,
                         endpoint: (string, Form) -> TokenResponse)
      requires Valid()
      modifies this, cache
      ensures Valid()
      ensures var cached := old(cache.ReadCache(RefreshKey));
              var form := Encode(UserGrant(cached, browser(clientId, scope)));
              && exchanges == old(exchanges) + (if NeedsConsent(cached) then [Consent(clientId, scope)] else [])
                                             + [TokenPost(AuthKey(), form)]
              && (match endpoint(AuthKey(), form)
                  case Granted(accessToken, refreshToken) =>
                    && token == Some(accessToken)
                    && cache.contents == (if Truthy(refreshToken) && old(cache.contents).Some?
                                          then Some(old(cache.contents).value[RefreshKey := refreshToken.value])
                                          else old(cache.contents))
                  case Rejected =>
                    token == old(token) && authorization == old(authorization) && cache.contents == old(cache.contents))
      ensures var cached := old(cache.ReadCache(RefreshKey));
              var response := endpoint(AuthKey(), Encode(UserGrant(cached, browser(clientId, scope))));
              response.Granted? && Truthy(response.refreshToken) && old(cache.contents).Some? ==>
                !NeedsConsent(cache.ReadCache(RefreshKey))
    {
      var cached := cache.ReadCache(RefreshKey);
      var code: Option<string> := None;
      if !TruthyRead(cached) {
        exchanges := exchanges + [Consent(clientId, scope)];
        code := browser(clientId, scope);
      }
      var form := UserForm(cached, code);
      UserFormIsGrant(cached, browser(clientId, scope));
      exchanges := exchanges + [TokenPost(AuthKey(), form)];
      match endpoint(AuthKey(), form)
      case Granted(accessToken, refreshToken) =>
        Install(accessToken);
        if Truthy(refreshToken) {
          var _ := cache.CacheCode(RefreshKey, refreshToken.value);
        }
      case Rejected =>
    }

    /**
     The walk every paginated method runs: request the first page with no
     cursor, push its items, then for `i` from 2 to `ceil(total / pageSize)`
     (stopping at a truthy cap) follow `next` and push the later items.
     */
    method WalkPages<T, S, U>(get: string -> Response<T>, home: string, pageSize: nat, cap: Option<int>,
                              formatter: Option<Option<S> -> Result<U>>, first: T -> Option<S>, later: T -> Option<S>)
      returns (t: Trace<Entry<T, U>>)
      requires pageSize > 0
      ensures t == Walk(get, home, pageSize, cap, formatter, first, later)
    {
      var response := get(home);
      if response.Empty? {
        return Trace([home], Raised(NotIterable("items")));
      }
      var pushed := PushAll([], formatter, first, response.page.items);
      if pushed.Raised? {
        return Trace([home], pushed);
      }
      ghost var firstPage := EmitAll(formatter, first, response.page.items);
      assert firstPage.Ok? && [] + firstPage.value == firstPage.value;
      t := FollowPages(get, home, response.page.next, CeilDiv(response.page.total, pageSize), cap, formatter, later,
                       [home], pushed.value);
    }

    /** `getUserPlaylists(formater)`: the user's playlists, 20 per page. */
    method GetUserPlaylists<T, U>(get: string -> Response<T>, formatter: Option<Option<T> -> Result<U>>)
      returns (t: Trace<Entry<T, U>>)
      ensures t == Walk(get, UserPlaylistsPath, UserPageSize, None, formatter, Itself, Itself)
      ensures t.urls[0] == UserPlaylistsPath
      ensures Chained(get, UserPlaylistsPath, None, t.urls)
      ensures t.result.Ok? ==> |t.urls| == Max(1, CeilDiv(get(UserPlaylistsPath).page.total, UserPageSize))
      ensures t.result.Ok? ==> t.result == EmitAll(formatter, Itself, Items(get, t.urls))
    {
      t := WalkPages(get, UserPlaylistsPath, UserPageSize, None, formatter, Itself, Itself);
      RequestCount(get, UserPlaylistsPath, UserPageSize, None, formatter, Itself, Itself);
      CursorChain(get, UserPlaylistsPath, UserPageSize, None, formatter, Itself, Itself);
      UniformOutput(get, UserPlaylistsPath, UserPageSize, None, formatter, Itself);
    }

    /** `getUserAlbums(formater)`: the user's saved albums, 20 per page. */
    method GetUserAlbums<T, U>(get: string -> Response<T>, formatter: Option<Option<T> -> Result<U>>)
      returns (t: Trace<Entry<T, U>>)
      ensures t == Walk(get, UserAlbumsPath, UserPageSize, None, formatter, Itself, Itself)
      ensures t.urls[0] == UserAlbumsPath
      ensures Chained(get, UserAlbumsPath, None, t.urls)
      ensures t.result.Ok? ==> |t.urls| == Max(1, CeilDiv(get(UserAlbumsPath).page.total, UserPageSize))
      ensures t.result.Ok? ==> t.result == EmitAll(formatter, Itself, Items(get, t.urls))
    {
      t := WalkPages(get, UserAlbumsPath, UserPageSize, None, formatter, Itself, Itself);
      RequestCount(get, UserAlbumsPath, UserPageSize, None, formatter, Itself, Itself);
      CursorChain(get, UserAlbumsPath, UserPageSize, None, formatter, Itself, Itself);
      UniformOutput(get, UserAlbumsPath, UserPageSize, None, formatter, Itself);
    }

    /** `getUserLikedSongs(formater)`: the user's liked tracks, 20 per page. */
    method GetUserLikedSongs<T, U>(get: string -> Response<T>, formatter: Option<Option<T> -> Result<U>>)
      returns (t: Trace<Entry<T, U>>)
      ensures t == Walk(get, UserTracksPath, UserPageSize, None, formatter, Itself, Itself)
      ensures t.urls[0] == UserTracksPath
      ensures Chained(get, UserTracksPath, None, t.urls)
      ensures t.result.Ok? ==> |t.urls| == Max(1, CeilDiv(get(UserTracksPath).page.total, UserPageSize))
      ensures t.result.Ok? ==> t.result == EmitAll(formatter, Itself, Items(get, t.urls))
    {
      t := WalkPages(get, UserTracksPath, UserPageSize, None, formatter, Itself, Itself);
      RequestCount(get, UserTracksPath, UserPageSize, None, formatter, Itself, Itself);
      CursorChain(get, UserTracksPath, UserPageSize, None, formatter, Itself, Itself);
      UniformOutput(get, UserTracksPath, UserPageSize, None, formatter, Itself);
    }

    /**
     `getPlaylistTracks(playlistId, formater, pages)`: the playlist's tracks,
     100 per page, formatting each item's `track` (`track` reads it) and
     stopping after `pages` requests when `pages` is truthy.
     */
    method GetPlaylistTracks<T, S, U>(playlistId: string, get: string -> Response<T>, track: T -> Option<S>,
                                      formatter: Option<Option<S> -> Result<U>>, pages: Option<int>)
      returns (t: Trace<Entry<T, U>>)
      ensures t == Walk(get, PlaylistPath(playlistId), TrackPageSize, pages, formatter, track, track)
      ensures t.urls[0] == PlaylistPath(playlistId)
      ensures Chained(get, PlaylistPath(playlistId), None, t.urls)
      ensures t.result.Ok? ==>
        |t.urls| == Requests(CeilDiv(get(PlaylistPath(playlistId)).page.total, TrackPageSize), pages)
      ensures t.result.Ok? ==> t.result == EmitAll(formatter, track, Items(get, t.urls))
    {
      t := WalkPages(get, PlaylistPath(playlistId), TrackPageSize, pages, formatter, track, track);
      RequestCount(get, PlaylistPath(playlistId), TrackPageSize, pages, formatter, track, track);
      CursorChain(get, PlaylistPath(playlistId), TrackPageSize, pages, formatter, track, track);
      UniformOutput(get, PlaylistPath(playlistId), TrackPageSize, pages, formatter, track);
    }

    /**
     `getAlbumTracks(albumId, formater)`: the album's tracks, 100 per page;
     first-page items are formatted directly, later-page items through
     their `track` property (`track` reads it).
     */
    method GetAlbumTracks<T, U>(albumId: string, get: string -> Response<T>, track: T -> Option<T>,
                                formatter: Option<Option<T> -> Result<U>>)
      returns (t: Trace<Entry<T, U>>)
      ensures t == Walk(get, AlbumPath(albumId), TrackPageSize, None, formatter, Itself, track)
      ensures t.urls[0] == AlbumPath(albumId)
      ensures Chained(get, AlbumPath(albumId), None, t.urls)
      ensures t.result.Ok? ==> |t.urls| == Max(1, CeilDiv(get(AlbumPath(albumId)).page.total, TrackPageSize))
      ensures t.result.Ok? ==>
        t.result == Concat(EmitAll(formatter, Itself, Items(get, t.urls[..1])),
                           EmitAll(formatter, track, Items(get, t.urls[1..])))
    {
      t := WalkPages(get, AlbumPath(albumId), TrackPageSize, None, formatter, Itself, track);
      RequestCount(get, AlbumPath(albumId), TrackPageSize, None, formatter, Itself, track);
      CursorChain(get, AlbumPath(albumId), TrackPageSize, None, formatter, Itself, track);
      OutputOrder(get, AlbumPath(albumId), TrackPageSize, None, formatter, Itself, track);
    }

    /**
     `getAudiosFeatures(trackIds)`: one request per chunk of at most 100 ids,
     each with the chunk's ids comma-joined, and the responses' features
     concatenated in chunk order (a failed chunk adds one `undefined`).
     */
    method GetAudiosFeatures<F>(trackIds: seq<string>, get: string -> FeaturesResponse<F>)
      returns (data: seq<Option<F>>, queries: seq<string>)
      ensures var chunks := Chunk(trackIds, BatchSize);
        && |queries| == |chunks|
        && (forall k :: 0 <= k < |chunks| ==> queries[k] == Join(chunks[k]))
        && data == Gathered(get, chunks)
      ensures |queries| == CeilDiv(|trackIds|, BatchSize)
      ensures trackIds == [] ==> queries == [] && data == []
    {
      var chunks := Chunk(trackIds, BatchSize);
      data, queries := [], [];
      var k := 0;
      while k < |chunks|
        invariant 0 <= k <= |chunks|
        invariant |queries| == k && forall j :: 0 <= j < k ==> queries[j] == Join(chunks[j])
        invariant data == Gathered(get, chunks[..k])
      {
        var ids := Join(chunks[k]);
        queries := queries + [ids];
        assert chunks[..k + 1][..k] == chunks[..k];
        data := data + Contribution(get(ids));
        k := k + 1;
      }
      assert chunks[..k] == chunks;
    }
  }

  /**
   The album quirk: with the default formatter, a later page holding any item
   makes `getAlbumTracks` raise, since album-track items have no `track`
   property and `formatSongData(undefined)` reads `undefined.id`.
   */
  lemma AlbumLaterPageRaises(get: string -> Response<RawTrack>, albumId: string)
    requires get(AlbumPath(albumId)).Fetched?
    requires var p := get(AlbumPath(albumId)).page;
      && EmitAll(Some(FormatSongData), Itself, p.items).Ok?
      && p.total > TrackPageSize
      && get(Resolve(p.next, AlbumPath(albumId))).Fetched?
      && get(Resolve(p.next, AlbumPath(albumId))).page.items != []
    ensures Walk(get, AlbumPath(albumId), TrackPageSize, None, Some(FormatSongData), Itself, NoTrack).result
            == Raised(ReadOfUndefined("id"))
  {
  }
}
