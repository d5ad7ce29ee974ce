# aionexusmods — request dispatch and session lifecycle, in Dafny

This project models the core of `aionexusmods`, an asynchronous Python client for the
Nexus Mods public REST API. The core is the `NexusMods` class
(`aionexusmods/nexusmods.py`) and the recursive traversal `ContentPreview.children_recursive`
(`aionexusmods/models.py`).

- **Session lifecycle** (module `Lifecycle`). A client's `_session` is `None` until the first
  `async with`. It then holds an aiohttp session, which `__aexit__` closes. `_active_session`
  raises "before it was started" or "after it was closed". Entering again while a session is
  still open raises "attemped to start a new session before closing the previous one", with the
  source's spelling kept. A closed session may be replaced by a new one.
- **Dispatch** (modules `Dispatch` and `Client`). `_get`, `_post`, `_delete` and `_get_iter_chunks`
  first take a permit from the shared rate limiter, then ask for the active session, then send the
  request.
  - The permit is spent even when the session check fails.
  - A ghost event log records every permit and every request sent. The log keeps the invariant
    that no request reaches the network without a permit taken just before it.
  - HTTP error statuses become a `RemoteError` (the session has `raise_for_status=True`).
  - Streamed downloads read at most 12 MiB per chunk. They stop at the first empty read. Their
    chunks concatenate to exactly the response body.
- **Endpoints** (module `Endpoints`). Every public API method is modelled as the request it
  builds: its verb, its URL and its JSON payload. The URL is under
  `https://api.nexusmods.com/v1`, except for content previews and downloads, which GET the link
  they are given, exactly as given.
  - `set_endorsed` chooses between `/endorse.json` and `/abstain.json`.
  - `set_tracked` chooses between POST and DELETE on the same URL.
  - Mod and file ids go into URLs in decimal; distinct ids give distinct URLs.
  - The client methods `GetMod`, `GetMd5Search`, `SetEndorsed`, `GetFilesAndUpdates` and
    `SetTracked` show how a builder, a dispatch and a decode compose.
- **Records** (module `Models`). Only the records that the modelled client methods decode or
  reshape are declared, as plain datatypes: Mod, File, FileUpdate, FilesResult, SearchResult,
  Status, Message, ContentPreview and the records inside them. `ContentPreview`
  is a tree. `ChildrenRecursive` yields its descendants in pre-order: each child, then that
  child's own descendants. A missing (`None`) or empty child list yields nothing.

The network transport is a parameter `Request -> Reply`. How many bytes the connection has
ready at each offset is a parameter `delivery: nat -> nat`. JSON decoding is a parameter
`seq<byte> -> Option<T>`. The limiter is a class with a permit counter. It is passed to the
client's constructor and stands for the class-level `_limiter`, which all clients share.

Facts of the code that shape the model:
- `_active_session` and `__aenter__` raise plain `RuntimeError`s. Only the message tells the
  three failures apart; `Lifecycle.MessagesDistinguish` shows that the messages are distinct.
- `__aexit__` closes through `_active_session`, so leaving a client that was never entered raises
  "before it was started", and leaving it a second time raises "after it was closed".
- The limiter is one `AsyncLimiter` built once for the class, and the per-host connection limit
  is the constant 28.

## Model

| member | source | states |
|---|---|---|
| Lifecycle.MessagesDistinguish | aionexusmods/nexusmods.py:231-240 | the three lifecycle error messages are pairwise distinct, so a caller can tell "not started", "closed" and "already open" apart |
| Lifecycle.Active | aionexusmods/nexusmods.py:231-236 | the gate succeeds exactly when a session exists and is not closed, and then returns that session; otherwise it fails with NotStarted exactly when there is no session and UsedAfterClose exactly when the session is closed; it never reports AlreadyOpen |
| Lifecycle.Enter | aionexusmods/nexusmods.py:238-250 | entering fails, with AlreadyOpen, exactly when a session is open; otherwise the new state is an open session built by NewSession: the apikey, user-agent and content-type headers, raise_for_status, and 28 connections per host |
| Lifecycle.Exit | aionexusmods/nexusmods.py:252-253 | exiting succeeds exactly when a session is open and leaves it closed, after which the gate reports UsedAfterClose; otherwise it fails with the gate's own error |
| Lifecycle.CyclesLegal | aionexusmods/nexusmods.py:238-253 | any number of rounds of enter, one call, exit, starting with no session or a closed one, all succeed; after at least one round the state is a closed copy of a freshly built session |
| Lifecycle.DoubleOpenFails | aionexusmods/nexusmods.py:238-250 | from a client with no open session, the first entry succeeds and leaves a session open, and a second entry without an exit fails with AlreadyOpen; Client.NexusMods.Enter leaves the session unchanged on that failure, so the first session stays open |
| Lifecycle.NeverUnstartedAgain | aionexusmods/nexusmods.py:238-253 | once a session exists, no sequence of enter/use/exit operations brings the client back to "not started" |
| Lifecycle.ClosedOnlyReplaced | aionexusmods/nexusmods.py:238-253 | from a closed session, the only operation that succeeds is entering, and it yields a freshly built session |
| Client.NexusMods.constructor | aionexusmods/nexusmods.py:39-42 | a new client keeps its API key, game domain and user agent, has no session, and has an empty event log |
| Client.NexusMods.ActiveSession | aionexusmods/nexusmods.py:231-236 | the client's gate is the lifecycle gate applied to its session field |
| Client.NexusMods.Enter | aionexusmods/nexusmods.py:238-250 | the client's enter succeeds exactly when the lifecycle allows it, and installs the new session; on failure it reports AlreadyOpen and leaves the session unchanged |
| Client.NexusMods.Exit | aionexusmods/nexusmods.py:252-253 | the client's exit succeeds exactly when the lifecycle allows it, and closes the session; on failure it reports the gate's error and leaves the session unchanged |
| Client.Limiter.Acquire | aionexusmods/nexusmods.py:229 | each acquisition spends exactly one more permit |
| Dispatch.Outcome | aionexusmods/nexusmods.py:255-258 | a dispatch succeeds exactly when the session is open and the transport delivers, and then returns the delivered body; it fails with the gate's session error exactly when the session is not open; an HTTP error status is passed through as RemoteError; it never fails with a decode error |
| Dispatch.Decoded | aionexusmods/nexusmods.py:90-91 | decoding succeeds exactly when the dispatch succeeded and the bytes decode; dispatch errors pass through unchanged; bytes that do not decode give DecodeError |
| Dispatch.DispatchEvents | aionexusmods/nexusmods.py:255-258 | every dispatch takes a permit first; a request goes on the wire, right after the permit, exactly when the session is open |
| Dispatch.DispatchKeepsPermitted | aionexusmods/nexusmods.py:255-272 | a dispatch keeps "every request sent was preceded by a permit", adds exactly one permit, and adds one request if the session was open and none otherwise |
| Dispatch.SentBoundedByPermits | aionexusmods/nexusmods.py:229 | in any history where every request was permitted, requests sent never outnumber permits taken |
| Dispatch.FullChunks | aionexusmods/nexusmods.py:273-278 | cutting a body into 12 MiB pieces gives chunks that concatenate back to the body, are non-empty, and all hold exactly 12 MiB except possibly the last |
| Dispatch.FullChunksUnique | aionexusmods/nexusmods.py:273-278 | any well-formed chunking whose chunks are all full except the last is the 12 MiB cut of its own concatenation |
| Client.NexusMods.Issue | aionexusmods/nexusmods.py:255-268 | one dispatch spends exactly one limiter permit, appends the dispatch's events to the log, keeps every request permitted, and returns the dispatch outcome |
| Client.NexusMods.HttpGet | aionexusmods/nexusmods.py:255-258 | a GET dispatch spends one permit, logs its events and returns the outcome of the GET request |
| Client.NexusMods.HttpPost | aionexusmods/nexusmods.py:260-263 | a POST dispatch spends one permit, logs its events and returns the outcome of the POST request |
| Client.NexusMods.HttpDelete | aionexusmods/nexusmods.py:265-268 | a DELETE dispatch spends one permit, logs its events and returns the outcome of the DELETE request |
| Client.ByteStream.Read | aionexusmods/nexusmods.py:274 | a read returns the next bytes of the body in order, never more than asked; it returns nothing exactly when nothing was asked or the body is exhausted; when enough bytes are ready it returns as many as asked or as remain |
| Client.ReadToEnd | aionexusmods/nexusmods.py:273-278 | reading until the first empty chunk consumes the whole body, and the chunks read concatenate to it and are all non-empty and at most 12 MiB; when the connection always has 12 MiB ready, the chunks are the 12 MiB cut of the body |
| Client.NexusMods.GetIterChunks | aionexusmods/nexusmods.py:270-278 | a streamed GET spends exactly one permit, then yields either the dispatch's error or chunks that concatenate to the dispatch's body |
| Client.NexusMods.Download | aionexusmods/nexusmods.py:208-222 | the bytes written by a download, chunk after chunk, are exactly the body the buffered GET of the same link would return, or the same error, for one permit |
| Client.NexusMods.GetMod | aionexusmods/nexusmods.py:86-91 | fetching a mod dispatches the mod's GET request and decodes its result |
| Client.NexusMods.GetMd5Search | aionexusmods/nexusmods.py:93-99 | an MD5 search dispatches its GET request, decodes the results and pairs each result's mod with its file details, in order |
| Client.NexusMods.SetEndorsed | aionexusmods/nexusmods.py:101-114 | endorsing POSTs the version to the mod's endorse URL and unendorsing to its abstain URL, then decodes the status |
| Client.NexusMods.GetFilesAndUpdates | aionexusmods/nexusmods.py:120-126 | fetching files dispatches the files GET request and returns the decoded files and file updates as a pair |
| Client.NexusMods.SetTracked | aionexusmods/nexusmods.py:172-179 | tracking POSTs and untracking DELETEs the domain and mod id to the tracked-mods URL, then decodes the message |
| Endpoints.ApiUrl | aionexusmods/nexusmods.py:26 | an API URL starts with the base URL and a slash, ends with ".json", and reading it back with ResourceOf gives the path it was built from |
| Endpoints.ApiUrlInjective | aionexusmods/nexusmods.py:26 | two API URLs are equal exactly when their paths are |
| Endpoints.ModUpdatesRequest | aionexusmods/nexusmods.py:48-56 | the updated-mods request is a GET whose URL reads back as the resource `games/{domain}/mods/updated`, with the period as its only payload field |
| Endpoints.ModChangelogsRequest | aionexusmods/nexusmods.py:58-63 | a GET with no payload, under the base URL and ending in ".json", whose URL reads back as the resource `games/{domain}/mods/{mod_id}/changelogs` |
| Endpoints.LatestAddedModsRequest | aionexusmods/nexusmods.py:65-70 | a GET with no payload, under the base URL and ending in ".json", whose URL reads back as the resource `games/{domain}/mods/latest_added` |
| Endpoints.LatestUpdatedModsRequest | aionexusmods/nexusmods.py:72-77 | a GET with no payload, under the base URL and ending in ".json", whose URL reads back as the resource `games/{domain}/mods/latest_updated` |
| Endpoints.TrendingModsRequest | aionexusmods/nexusmods.py:79-84 | a GET with no payload, under the base URL and ending in ".json", whose URL reads back as the resource `games/{domain}/mods/trending` |
| Endpoints.ModRequest | aionexusmods/nexusmods.py:86-91 | a GET with no payload, under the base URL and ending in ".json", whose URL reads back as the resource `games/{domain}/mods/{mod_id}` |
| Endpoints.ModUrlInjective | aionexusmods/nexusmods.py:90 | two mod requests for one game are equal exactly when the mod ids are |
| Endpoints.Md5SearchRequest | aionexusmods/nexusmods.py:93-97 | a GET with no payload, under the base URL and ending in ".json", whose URL reads back as the resource `games/{domain}/mods/md5_search/{md5}` |
| Endpoints.Md5SearchPairs | aionexusmods/nexusmods.py:98-99 | the pairs have one entry per search result, in order, each made of that result's mod and file details |
| Endpoints.SetEndorsedRequest | aionexusmods/nexusmods.py:101-114 | a POST with the version as its only payload field, whose URL reads back as the resource `games/{domain}/mods/{mod_id}/endorse` when endorsing and `games/{domain}/mods/{mod_id}/abstain` when not; the URL ends in "/endorse.json" exactly when endorsing and in "/abstain.json" exactly when not |
| Endpoints.EndorseAbstainDistinct | aionexusmods/nexusmods.py:104-113 | endorsing and unendorsing the same mod go to different URLs |
| Endpoints.FilesAndUpdatesRequest | aionexusmods/nexusmods.py:120-124 | a GET with no payload, under the base URL and ending in ".json", whose URL reads back as the resource `games/{domain}/mods/{mod_id}/files` |
| Endpoints.FilesAndUpdatesPair | aionexusmods/nexusmods.py:125-126 | the pair holds exactly the parsed files and file updates, and rebuilds the parsed record |
| Endpoints.FileRequest | aionexusmods/nexusmods.py:128-133 | a GET with no payload, under the base URL and ending in ".json", whose URL reads back as the resource `games/{domain}/mods/{mod_id}/files/{file_id}` |
| Endpoints.FileUrlInjective | aionexusmods/nexusmods.py:132 | two file requests for one game are equal exactly when both the mod ids and the file ids are |
| Endpoints.DownloadLinksRequest | aionexusmods/nexusmods.py:135-142 | a GET with no payload, under the base URL and ending in ".json", whose URL reads back as the resource `games/{domain}/mods/{mod_id}/files/{file_id}/download_link` |
| Endpoints.GamesRequest | aionexusmods/nexusmods.py:148-151 | a GET with no payload, under the base URL and ending in ".json", whose URL reads back as the resource `games` |
| Endpoints.GameRequest | aionexusmods/nexusmods.py:153-156 | a GET with no payload, under the base URL and ending in ".json", whose URL reads back as the resource `games/{domain}` |
| Endpoints.UserRequest | aionexusmods/nexusmods.py:162-165 | a GET with no payload, under the base URL and ending in ".json", whose URL reads back as the resource `users/validate` |
| Endpoints.TrackedModsRequest | aionexusmods/nexusmods.py:167-170 | a GET with no payload, under the base URL and ending in ".json", whose URL reads back as the resource `user/tracked_mods` |
| Endpoints.SetTrackedRequest | aionexusmods/nexusmods.py:172-179 | the tracked-mods URL with the domain and mod id as payload; the verb is POST exactly when tracking and DELETE exactly when untracking |
| Endpoints.TrackUntrackDifferOnlyInVerb | aionexusmods/nexusmods.py:174-178 | tracking and untracking the same mod send the same URL and payload and differ only in verb |
| Endpoints.EndorsementsRequest | aionexusmods/nexusmods.py:181-184 | a GET with no payload, under the base URL and ending in ".json", whose URL reads back as the resource `user/endorsements` |
| Endpoints.ColourSchemesRequest | aionexusmods/nexusmods.py:190-195 | a GET with no payload, under the base URL and ending in ".json", whose URL reads back as the resource `colourschemes` |
| Endpoints.LinkRequest | aionexusmods/nexusmods.py:201-222 | content previews and downloads GET the given link exactly as given, with no payload |
| Text.IntToString | aionexusmods/nexusmods.py:90 | the decimal form of an id, as `str(int)` writes it: non-empty digits with a leading '-' exactly for negative ids, no leading zero, and "0" only for zero |
| Text.IntToStringRoundTrip | aionexusmods/nexusmods.py:90 | parsing the decimal form of an id gives the id back |
| Text.IntToStringInjective | aionexusmods/nexusmods.py:90 | distinct ids have distinct decimal forms |
| Models.Kids | aionexusmods/models.py:192 | the children of a preview node, with a missing list read as empty; each child ranks below its parent |
| Models.ChildrenRecursive | aionexusmods/models.py:191-194 | everything yielded lies strictly inside the tree, every direct child is yielded, and nothing is yielded exactly when the node has no children |
| Models.PreOrder | aionexusmods/models.py:192-194 | for each child, the traversal is the traversal of the earlier siblings, then that child, then its own whole traversal, then the traversal of the later siblings |
| Models.FirstYieldIsFirstChild | aionexusmods/models.py:192-193 | a node with children yields its first child first |
| Models.TraversalLength | aionexusmods/models.py:191-194 | the traversal yields one element per node of the tree except the root |
| Models.TraversalMembers | aionexusmods/models.py:191-194 | a node is yielded exactly when it is a proper descendant of the root |
| Models.RootNotYielded | aionexusmods/models.py:191-194 | the root is never among the nodes yielded |

## Left out

- The aiohttp transport, TLS and connection pooling are not modelled. The transport is a function parameter, and the 28-connection per-host limit is kept only as a session field.
- `aiohttp.ClientResponseError` is modelled as `RemoteError` with the HTTP status only. Its reason text, headers and request information are not kept.
- The limiter's timing is not modelled: its rate, its refill and blocking in `acquire`. Only the permit count and the permit-before-request order are modelled. The code builds `AsyncLimiter(3600 / 28)`, which is about 128 permits per 60 seconds, although its comment says 28 per second. Neither figure is stated in the model.
- Concurrency and cancellation of asynchronous calls are not modelled. Calls are sequential, so an abandoned call does not exist in the model.
- JSON decoding (`parse_raw_as` with the pydantic schemas) is a function parameter. Only the records named above are declared, and their validation is not modelled.
- The records `Category`, `ColourScheme`, `DownloadLink`, `Endorsement`, `Game`, `ModUpdate`, `TrackedMod` and `User` are not declared. Only the requests of the methods that return them are modelled, and no modelled client method decodes them.
- `download`'s file system effects are not modelled: creating the directory and opening and writing the file. The model returns the bytes written, in order.
- `USER_AGENT` is built from the platform and interpreter versions, which are outside the program, so it is a constructor parameter.
- Client.NexusMods.GetIterChunks: it collects the chunks eagerly, so the laziness of the async generator is not modelled. In the source the session check and the permit happen at the first iteration, not at the call.
- Session identity and aliasing are not modelled. A session is a value, and closing it replaces the client's field with a closed copy.
- The endpoint builders state the resource path their URL names, with ids in decimal. Injectivity in the ids is proved only for ModRequest and FileRequest.
- `get_mod_updates`, `get_mod_changelogs`, `get_latest_added_mods`, `get_latest_updated_mods`, `get_trending_mods`, `get_file`, `get_download_links`, `get_games`, `get_game`, `get_user`, `get_tracked_mods`, `get_endorsements`, `get_colour_schemes` and `get_content_preview` are modelled as their request builders. The client methods GetMod, GetMd5Search, SetEndorsed, GetFilesAndUpdates and SetTracked show the shared pattern: a builder, then `HttpGet`, `HttpPost` or `HttpDelete`, then `Decoded`. The other methods are not repeated as client methods.
- Python's arbitrary-precision `int` ids are modelled as Dafny `int`, so no width limits arise.
