# spotify-sdk client core, modelled in Dafny

This project models the aggregation core of the `spotify-sdk` JavaScript client:

- **The `Spotify` class** (`src/index.js`). It covers both authorization flows, the track search, the five paginated walks and the batched audio-feature requests.
  - Client-credentials flow: `authorize`.
  - Cached-refresh-token / browser-consent flow: `authorize_user`.
  - Track search: `searchTrack`.
  - Paginated walks: `getUserPlaylists`, `getUserAlbums`, `getUserLikedSongs`, `getPlaylistTracks` and `getAlbumTracks`.
  - Batched audio-feature requests: `getAudiosFeatures`.
- **The helpers in `utils/index.js`.** These are the track formatter `formatSongData` and the on-disk key-value cache (`cacheCode`, `readCache`).

Every network call is an oracle parameter:

- `get` maps the requested URL to its response.
- `endpoint` answers the token POST.
- `browser` yields the authorization code from the consent flow.

A request helper's `catch` returns `{}`. The model represents that as `Pagination.Response.Empty` or `Batch.FeaturesResponse.NoData`.

The modules follow the program:

| module | file | contents |
|---|---|---|
| `Common` | `common.dfy` | `Option` for `undefined`/`null`, `Result` with the exceptions the code raises, `Math.ceil(n / size)` |
| `Format` | `format.dfy` | `formatSongData` |
| `Cache` | `cache.dfy` | `CacheFile`, with `readCache` as a function and `cacheCode` as a method |
| `Pagination` | `pagination.dfy` | the walk as a specification (`Walk`, `Rest`) and its properties |
| `Batch` | `batch.dfy` | chunking, the comma-joined ids and the concatenated features, as a specification |
| `Auth` | `auth.dfy` | the request bodies of the three OAuth 2.0 grants (RFC 6749 sections 4.4, 4.1.3 and 6) and the grant `authorize_user` selects |
| `Client` | `client.dfy` | the `Spotify` class: its token state, and methods with loops proved equal to the specifications above |

**Behaviour of the code a reader might not expect:**

- **A failed page request does not degrade to an empty page.**
  - The helper returns `{}`.
  - The walk then runs `for (let item of items)` over `undefined`, which raises.
  - So the whole walk rejects (`Pagination.FailedPageAborts`).
- **A failed audio-feature chunk does not add an empty result.**
  - `concat(undefined)` appends exactly one `undefined` element (`Batch.FailedChunksLeaveHoles`).
- **A `null` `next` cursor does not end the walk.**
  - `link || home` requests the first page again (`Pagination.Resolve`, `Pagination.Chained`).
- **`authorize_user` can send a `refresh_token` grant with a value that is not a token.**
  - This happens when there is no truthy cached token and the consent flow yields no code.
  - The grant carries the query-string rendering of the cache read: `""` for `undefined`, `"false"` for `false` (`Auth.UserGrant`).

## Model

| member | source | states |
|---|---|---|
| Pagination.Resolve | src/index.js:381 | definition: the link when it is truthy, otherwise `home`, so a missing or empty link requests the endpoint's first page (the same expression at lines 395, 406, 421 and 434) |
| Pagination.Emit | src/index.js:289 | definition: one `push(formater ? formater(arg(item)) : item)`, where `arg` is `item` (lines 174, 337) or `item.track` (lines 289, 352); a raising formatter raises |
| Pagination.Breaks | src/index.js:299-303 | definition: `if (pages) { if (i > pages) break; }`, so a cap of `null` or `0` never breaks |
| Pagination.Rest | src/index.js:181-191 | definition: the loop from iteration `i` on, following the cursor, raising on a `{}` page or a raising formatter, stopping at the cap or after `total_pages` |
| Pagination.Walk | src/index.js:164-195 | definition: the first request with no cursor, its items pushed with the first-page projection, then `Rest` from page 2 to `ceil(total / pageSize)` |
| Batch.Join | src/index.js:448 | definition: `trackIds.join(",")` |
| Batch.Contribution | src/index.js:372 | definition: what `audio_data.concat(data.audio_features)` appends: the features, or a single `undefined` when the request returned `{}` |
| Batch.Gathered | src/index.js:370-373 | definition: `audio_data` after one request per chunk, the contributions concatenated in chunk order |
| Auth.Encode | src/index.js:42-44 | definition: the form fields of each grant; both user grants (lines 87-91) carry the fixed `redirect_uri` |
| Auth.UserForm | src/index.js:87-91 | definition: the body `authorize_user` assembles by hand from the code and the cached value |
| Auth.Stringify | src/index.js:87-89 | definition: the query-string rendering of the cache read: the string, `""` for `undefined`, `"false"` for `false` |
| Auth.CodeUsed | src/index.js:72-81 | definition: the code is `null` unless the cache holds no truthy refresh token, in which case it is the browser's code |
| Common.CeilDiv | src/index.js:178 | definition: `Math.ceil(total / P)` for a non-negative `total` (the same expression at lines 211, 254, 293 and 341) |
| Common.Truthy | src/index.js:381 | definition: JavaScript truthiness of an optional string, where `undefined`, `null` and `""` are falsy (as used at lines 88-89 and 110) |
| Cache.TruthyRead | src/index.js:78 | definition: truthiness of a `readCache` result, where `undefined`, `false` and `""` are falsy |
| Auth.NeedsConsent | src/index.js:78 | definition: `!refresh_token`, the condition for opening the browser |
| Client.PlaylistPath | src/index.js:421 | definition: the first-page URL `/playlists/${playlistId}/tracks` |
| Client.AlbumPath | src/index.js:434 | definition: the first-page URL `/albums/${albumId}/tracks` |
| Client.SearchQuery | src/index.js:140 | definition: the search's `q` parameter `track:${title} artist:${artist}` |
| Client.Bearer | src/index.js:57 | definition: the header value `Bearer ${access_token}` (also line 105) |
| Client.Spotify.AuthKey | src/index.js:35-37 | definition: the Basic-auth key `${clientID}:${clientSecret}` before base64 encoding (also lines 74-76) |
| Client.NoTrack | src/index.js:352 | definition: `item.track` on an album-track item, which has no `track` property, so it is `undefined` |
| Common.CeilDivIsLeast | src/index.js:178 | `ceil(n / size)` is the least page count covering `n` items: `CeilDiv(n, size) * size >= n`, and one page fewer falls short |
| Format.PushNames | utils/index.js:14-19 | the `reduce` pushes the artists' names: same length and order as `artists`, after the accumulator, which is kept |
| Format.FindHeight | utils/index.js:24 | `find` stops at the first image whose height is 640 and at no earlier one; it returns the length when there is none |
| Format.BeforeDash | utils/index.js:25 | `split("-")[0]` is a prefix with no dash, either the whole string or followed by a dash |
| Format.FormatSongData | utils/index.js:7-29 | an undefined item raises on `.id`; a `null` id, and no other id, takes the placeholder branch `{title:"", artists:[""]}`; any other id is formatted field by field; the call raises iff an album is present with no 640-pixel image; title, disc and track numbers are copied; artists are the names in order; with no album, album, cover art and year are absent; otherwise the cover is the first 640 image's url and the year is the release date up to its first dash |
| Cache.CacheFile.ReadCache | utils/index.js:90-99 | `false` iff the file cannot be read; `undefined` iff the key is missing; otherwise the stored value |
| Cache.CacheFile.CacheCode | utils/index.js:81-88 | on a readable file, sets only `key` to `value`, keeps every other key and returns `true`; on an unreadable one, raises and writes nothing |
| Pagination.EmitAll | src/index.js:173-175 | the push loop over a page succeeds iff every item formats; then it gives one entry per item, in order; otherwise it raises the first failing item's error |
| Pagination.UnformattedItems | src/index.js:174 | with no formatter, the entries are the raw items themselves, in order |
| Pagination.RestCount | src/index.js:181-191 | the `for (i = 2 .. total_pages)` loop makes at most one request per uncapped iteration, and exactly that many when nothing raises |
| Pagination.RequestCount | src/index.js:178-191 | a walk that raises nothing fetched page 1 and made exactly `Requests(ceil(total / pageSize), cap)` requests (1 when there is at most one page, capped by a truthy `pages`); a raising walk made no more; there is always at least one request |
| Pagination.RestChained | src/index.js:182-186 | each later request uses the `next` link (or the first page when it is null) of the response before it |
| Pagination.CursorChain | src/index.js:166-186 | the first request has no cursor, and request k+1 follows the `next` returned by request k, which was a page |
| Pagination.RestOrder | src/index.js:182-191 | a loop that raises nothing returns the formatted items of the pages it fetched, in request order |
| Pagination.OutputOrder | src/index.js:327-358 | a walk that raises nothing returns page 1's items formatted with the first-page projection, followed by the later pages' items formatted with the later projection |
| Pagination.UniformOutput | src/index.js:164-195 | when every page uses one projection, the result is the formatting of all fetched items in order |
| Pagination.RestLastFailed | src/index.js:188 | if the loop's last request failed, the loop raises "items is not iterable" |
| Pagination.FailedPageAborts | src/index.js:389 | a failed request (`{}`) is the walk's last request, and the walk raises instead of returning a partial list |
| Batch.Chunk | src/index.js:368 | `chunk(ids, 100)`: the chunks concatenate back to the ids; each is non-empty and holds at most 100 ids; all but the last hold exactly 100; there are `ceil(n / 100)` of them |
| Batch.SplitJoin | src/index.js:448 | the comma-joined `ids` parameter names exactly the chunk's ids, provided no id holds a comma |
| Batch.FailedChunksLeaveHoles | src/index.js:370-373 | the accumulated features hold exactly one `undefined` per failed chunk and none from a successful one |
| Batch.GatheredLength | src/index.js:370-373 | when no chunk fails, the result has as many elements as the responses hold features |
| Auth.DecodeEncode | src/index.js:42-44 | every grant's request body is read back as that grant |
| Auth.UserGrant | src/index.js:78-91 | a truthy cached refresh token gives a refresh grant with it; otherwise a truthy browser code gives an authorization-code grant with it; otherwise a refresh grant with the rendered cache value; never client credentials |
| Auth.UserFormIsGrant | src/index.js:87-91 | the hand-assembled body of `authorize_user` is exactly the encoding of the selected grant, with the fixed `redirect_uri` |
| Client.SearchTrack | src/index.js:136-152 | a failed search or no result gives `undefined`; raw mode gives the first item; formatted mode gives a record iff formatting the first item succeeds, and that record is its formatting |
| Client.PushAll | src/index.js:188-190 | pushing a page's entries onto `songs` gives `songs` followed by the page's formatting, or raises |
| Client.FollowPages | src/index.js:181-192 | the loop over pages 2 and up requests and returns exactly what `Rest` specifies, after the first page's URL and entries |
| Client.Spotify.constructor | src/index.js:12-15 | a new client holds its credentials, has no token and has made no exchanges |
| Client.Spotify.Install | src/index.js:53-58 | sets `token` and the shared `Authorization: Bearer <token>` header together |
| Client.Spotify.Authorize | src/index.js:34-67 | posts the client-credentials grant with the `id:secret` key; on success installs the access token; on rejection leaves token and header unchanged |
| Client.Spotify.AuthorizeUser | src/index.js:69-125 | opens the browser iff there is no truthy cached refresh token; posts the selected grant; on success installs the access token and caches a truthy returned refresh token when the cache file is readable, after which no consent is needed; on rejection changes neither token nor cache |
| Client.Spotify.WalkPages | src/index.js:164-195 | the imperative walk (first request, push loop, `for` loop with cap) returns exactly `Walk` |
| Client.Spotify.GetUserPlaylists | src/index.js:164-195 | 20 per page from `/me/playlists`; each request after the first follows the previous response's `next`; exactly `max(1, ceil(total / 20))` requests when nothing raises; the output is all fetched items formatted in order |
| Client.Spotify.GetUserAlbums | src/index.js:197-228 | as `GetUserPlaylists`, from `/me/albums` |
| Client.Spotify.GetUserLikedSongs | src/index.js:240-271 | as `GetUserPlaylists`, from `/me/tracks` |
| Client.Spotify.GetPlaylistTracks | src/index.js:279-320 | 100 per page; `min(max(1, ceil(total / 100)), max(1, pages))` requests for a truthy `pages`, none beyond; each later request follows the previous `next`; the formatter sees `item.track` on every page; raw items when a falsy formatter (e.g. `null`) is passed |
| Client.Spotify.GetAlbumTracks | src/index.js:327-358 | 100 per page; each later request follows the previous `next`; page 1's items are formatted directly, later pages' items through `item.track` |
| Client.Spotify.GetAudiosFeatures | src/index.js:364-376 | one request per chunk of at most 100 ids, `ceil(n / 100)` in all, each with the chunk's ids comma-joined; features concatenated in chunk order; no ids gives no requests and `[]` |
| Client.AlbumLaterPageRaises | src/index.js:352 | with the default formatter, a non-empty second page makes `getAlbumTracks` raise, because album-track items have no `track` property and `formatSongData(undefined)` reads `.id` |

## Left out

- `openBrowserForAuth` (`utils/index.js:31-79`) is an HTTP server plus a browser launch. Its observable result, an optional code, is the `browser` oracle.
- The HTTP transport is not modelled: axios, the base URL, `querystring` percent-encoding and base64 encoding of the Basic-auth key. The token endpoint is an oracle over the key and the form fields, in order.
- The Authorization header is modelled as client state (`Client.Spotify.authorization`). It is not passed to the `get` oracle, because which credential a request carries is outside the walk logic.
- Console logging of errors and credentials is not modelled. It is output only.
- The asynchronous constructor's choice between `authorize_user` and `authorize` is not modelled; the two flows are separate methods. It is a self-returning promise that calls one of them.
- A response without `total` (so `Math.ceil(undefined / 20)` is `NaN`) is not modelled; the model takes `total` to be a non-negative integer.
- A non-numeric `pages` cap is not modelled; the cap is an optional integer.
- `null` entries in `artists` and a `null` album `release_date` are not modelled. Raw tracks carry the fields the formatter reads, with the optional ones as `Option`.
- Cache values are strings. Other JSON values are not modelled, and neither is the text of the file, since only parse success or failure matters to the client.
- `readCache` and `cacheCode` use a fixed path, `./cache.json`. The file-system effects of `writeFileSync` are modelled as the update of `Cache.CacheFile.contents`.
- lodash `chunk` internals are not modelled, only its observable contract (`Batch.Chunk`).
- The root `index.js`, `playlist.js` and `usage/*.js` are not part of this model. They are an older client and scripts that only call it.
- Keying audio features by id and request time-outs are not in the code and are not modelled.
- `Format.FormatSongData`: a missing property and a property holding `undefined` or `null` are all `None` in `TrackRecord`. So a record formatted from a non-null id, which has all seven keys, can equal `Placeholder`, which has two.
- `Client.Spotify.Authorize` and `Client.Spotify.AuthorizeUser` model the access token as a string. A granted response whose `access_token` is missing is not modelled. Such a response sets the token to `undefined` and the header to `"Bearer undefined"`, which `Valid()` cannot represent.
- Default arguments are supplied by the model's caller:
  - `formater = formatSongData` for `getPlaylistTracks` and `getAlbumTracks` is `Some(FormatSongData)`, as `Client.AlbumLaterPageRaises` uses it;
  - `pages = null` is `None`;
  - `formatted = true` for `searchTrack` is `true`.
