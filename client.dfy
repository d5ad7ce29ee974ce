/**
 * The NexusMods client object of aionexusmods/nexusmods.py: its session
 * field, the rate limiter every call goes through, the verbs, the chunked
 * download loop, and the endpoint methods that do more than build a URL.
 */
module Client {
  import opened Wrappers
  import opened Lifecycle
  import opened Endpoints
  import opened Dispatch
  import opened Models

  function Min(a: nat, b: nat): nat {
    if a < b then a else b
  }

  /**
   * The `AsyncLimiter` shared by every client. Only its permit count is
   * kept: each `async with self._limiter` takes one permit and none is
   * ever given back.
   */
  class Limiter {
    var spent: nat

    constructor ()
      ensures spent == 0
    {
      spent := 0;
    }

    method Acquire()
      modifies this
      ensures spent == old(spent) + 1
    {
      spent := spent + 1;
    }
  }

  /**
   * A response body being read (`response.content`): the bytes the server
   * sends, a cursor, and how many bytes the connection has ready when a
   * read starts at a given offset (at least one while bytes remain).
   */
  class ByteStream {
    const data: seq<byte>
    const delivery: nat -> nat
    var pos: nat

    ghost predicate Valid()
      reads this
    {
      pos <= |data|
    }

    constructor (data: seq<byte>, delivery: nat -> nat)
      ensures Valid() && this.data == data && this.delivery == delivery && pos == 0
    {
      this.data := data;
      this.delivery := delivery;
      pos := 0;
    }

    /**
     * `read(n)`: up to `n` of the bytes at the cursor, as many as are
     * ready; empty exactly when `n` is zero or the body is exhausted.
     */
    method Read(n: nat) returns (chunk: seq<byte>)
      requires Valid()
      modifies this
      ensures Valid() && old(pos) <= pos
      ensures chunk == data[old(pos)..pos]
      ensures |chunk| <= n
      ensures chunk == [] <==> n == 0 || old(pos) == |data|
      ensures delivery(old(pos)) >= n ==> |chunk| == Min(n, |data| - old(pos))
    {
      var ready := if delivery(pos) < 1 then 1 else delivery(pos);
      var k := Min(n, Min(|data| - pos, ready));
      chunk := data[pos..pos + k];
      pos := pos + k;
    }
  }

  class NexusMods {
    const gameDomainName: string
    const apiKey: string
    /** `USER_AGENT`, which the source composes from the platform it runs on. */
    const userAgent: string
    /** The class-level `_limiter`, shared with every other client given the same one. */
    const limiter: Limiter
    /** `_session`: `None` until the first `async with`. */
    var session: Option<Session>
    /** The permits taken and requests sent by this client, oldest first. */
    ghost var log: seq<Event>

    ghost predicate Valid()
      reads this
    {
      EveryRequestPermitted(log)
    }

    /** `NexusMods(api_key, game_domain_name)`: no session yet. */
    constructor (apiKey: string, gameDomainName: string, userAgent: string, limiter: Limiter)
      ensures Valid()
      ensures this.apiKey == apiKey && this.gameDomainName == gameDomainName
      ensures this.userAgent == userAgent && this.limiter == limiter
      ensures session == None && log == []
    {
      this.apiKey := apiKey;
      this.gameDomainName := gameDomainName;
      this.userAgent := userAgent;
      this.limiter := limiter;
      session := None;
      log := [];
    }

    /** `_active_session` */
    function ActiveSession(): (r: Result<Session, LifecycleError>)
      reads this
      ensures r == Active(session)
    {
      Active(session)
    }

    /** `__aenter__` */
    method Enter() returns (r: Result<(), LifecycleError>)
      modifies this`session
      ensures r.Ok? <==> Lifecycle.Enter(old(session), apiKey, userAgent).Ok?
      ensures r.Ok? ==> session == Lifecycle.Enter(old(session), apiKey, userAgent).value
      ensures r.Err? ==> r.error == AlreadyOpen && session == old(session)
      ensures Valid() == old(Valid())
    {
      if session.Some? && !session.value.closed {
        return Err(AlreadyOpen);
      }
      session := Some(NewSession(apiKey, userAgent));
      r := Ok(());
    }

    /** `__aexit__`: closes the session `_active_session` hands back. */
    method Exit() returns (r: Result<(), LifecycleError>)
      modifies this`session
      ensures r.Ok? <==> Lifecycle.Exit(old(session)).Ok?
      ensures r.Ok? ==> session == Lifecycle.Exit(old(session)).value
      ensures r.Err? ==> r.error == Lifecycle.Exit(old(session)).error && session == old(session)
      ensures Valid() == old(Valid())
    {
      var active := ActiveSession();
      if active.Err? {
        return Err(active.error);
      }
      session := Some(active.value.(closed := true));
      r := Ok(());
    }

    /** The body `_get`, `_post` and `_delete` share: permit, gate, request, body. */
    method Issue(verb: Verb, url: string, json: Option<JsonDict>, transport: Request -> Reply)
      returns (r: Result<seq<byte>, Error>)
      requires Valid()
      modifies this`log, limiter
      ensures Valid()
      ensures limiter.spent == old(limiter.spent) + 1
      ensures log == old(log) + DispatchEvents(session, Request(verb, url, json))
      ensures r == Outcome(session, Request(verb, url, json), transport)
    {
      limiter.Acquire();
      log := log + [Permit];
      var active := ActiveSession();
      if active.Err? {
        return Err(SessionError(active.error));
      }
      var req := Request(verb, url, json);
      log := log + [Sent(req)];
      match transport(req)
      case Delivered(body) => r := Ok(body);
      case HttpError(status) => r := Err(RemoteError(status));
    }

    /** `_get` */
    method HttpGet(url: string, json: Option<JsonDict>, transport: Request -> Reply)
      returns (r: Result<seq<byte>, Error>)
      requires Valid()
      modifies this`log, limiter
      ensures Valid()
      ensures limiter.spent == old(limiter.spent) + 1
      ensures log == old(log) + DispatchEvents(session, Request(Get, url, json))
      ensures r == Outcome(session, Request(Get, url, json), transport)
    {
      r := Issue(Get, url, json, transport);
    }

    /** `_post` */
    method HttpPost(url: string, json: Option<JsonDict>, transport: Request -> Reply)
      returns (r: Result<seq<byte>, Error>)
      requires Valid()
      modifies this`log, limiter
      ensures Valid()
      ensures limiter.spent == old(limiter.spent) + 1
      ensures log == old(log) + DispatchEvents(session, Request(Post, url, json))
      ensures r == Outcome(session, Request(Post, url, json), transport)
    {
      r := Issue(Post, url, json, transport);
    }

    /** `_delete` */
    method HttpDelete(url: string, json: Option<JsonDict>, transport: Request -> Reply)
      returns (r: Result<seq<byte>, Error>)
      requires Valid()
      modifies this`log, limiter
      ensures Valid()
      ensures limiter.spent == old(limiter.spent) + 1
      ensures log == old(log) + DispatchEvents(session, Request(Delete, url, json))
      ensures r == Outcome(session, Request(Delete, url, json), transport)
    {
      r := Issue(Delete, url, json, transport);
    }

    /**
     * `_get_iter_chunks`: one permit and one GET, then reads of at most
     * 12 MiB until the first empty read. The chunks are the body in order,
     * none empty, none too long; when the connection always has a full
     * chunk ready they are the body cut into full chunks.
     */
    method GetIterChunks(url: string, transport: Request -> Reply, delivery: nat -> nat)
      returns (r: Result<seq<seq<byte>>, Error>)
      requires Valid()
      modifies this`log, limiter
      ensures Valid()
      ensures limiter.spent == old(limiter.spent) + 1
      ensures log == old(log) + DispatchEvents(session, LinkRequest(url))
      ensures r.Ok? <==> Outcome(session, LinkRequest(url), transport).Ok?
      ensures r.Err? ==> r.error == Outcome(session, LinkRequest(url), transport).error
      ensures r.Ok? ==> Flatten(r.value) == Outcome(session, LinkRequest(url), transport).value
      ensures r.Ok? ==> WellChunked(r.value)
      ensures r.Ok? && (forall p :: delivery(p) >= CHUNK_SIZE) ==> r.value == FullChunks(Flatten(r.value))
    {
      limiter.Acquire();
      log := log + [Permit];
      var active := ActiveSession();
      if active.Err? {
        return Err(SessionError(active.error));
      }
      var req := Request(Get, url, None);
      log := log + [Sent(req)];
      match transport(req)
      case HttpError(status) =>
        r := Err(RemoteError(status));
      case Delivered(body) =>
        var stream := new ByteStream(body, delivery);
        var chunks := ReadToEnd(stream);
        r := Ok(chunks);
    }

    /**
     * `download`: writes the chunks of `_get_iter_chunks` one after the
     * other; returns what the file then holds.
     */
    method Download(link: string, transport: Request -> Reply, delivery: nat -> nat)
      returns (r: Result<seq<byte>, Error>)
      requires Valid()
      modifies this`log, limiter
      ensures Valid()
      ensures limiter.spent == old(limiter.spent) + 1
      ensures log == old(log) + DispatchEvents(session, LinkRequest(link))
      ensures r == Outcome(session, LinkRequest(link), transport)
    {
      var chunks := GetIterChunks(link, transport, delivery);
      if chunks.Err? {
        return Err(chunks.error);
      }
      var written: seq<byte> := [];
      for i := 0 to |chunks.value|
        modifies {}
        invariant written == Flatten(chunks.value[..i])
      {
        FlattenAppend(chunks.value[..i], chunks.value[i]);
        assert chunks.value[..i + 1] == chunks.value[..i] + [chunks.value[i]];
        written := written + chunks.value[i];
      }
      assert chunks.value[..|chunks.value|] == chunks.value;
      r := Ok(written);
    }

    /** `get_mod` */
    method GetMod(modId: int, transport: Request -> Reply, decode: seq<byte> -> Option<Mod>)
      returns (r: Result<Mod, Error>)
      requires Valid()
      modifies this`log, limiter
      ensures Valid()
      ensures limiter.spent == old(limiter.spent) + 1
      ensures log == old(log) + DispatchEvents(session, ModRequest(gameDomainName, modId))
      ensures r == Decoded(Outcome(session, ModRequest(gameDomainName, modId), transport), decode)
    {
      var req := ModRequest(gameDomainName, modId);
      var raw := HttpGet(req.url, req.json, transport);
      r := Decoded(raw, decode);
    }

    /** `get_md5_search`: the decoded search results, as (mod, file) pairs. */
    method GetMd5Search(md5: string, transport: Request -> Reply, decode: seq<byte> -> Option<seq<SearchResult>>)
      returns (r: Result<seq<(Mod, File)>, Error>)
      requires Valid()
      modifies this`log, limiter
      ensures Valid()
      ensures limiter.spent == old(limiter.spent) + 1
      ensures log == old(log) + DispatchEvents(session, Md5SearchRequest(gameDomainName, md5))
      ensures r.Ok? <==> Decoded(Outcome(session, Md5SearchRequest(gameDomainName, md5), transport), decode).Ok?
      ensures r.Ok? ==> r.value == Md5SearchPairs(Decoded(Outcome(session, Md5SearchRequest(gameDomainName, md5), transport), decode).value)
      ensures r.Err? ==> r.error == Decoded(Outcome(session, Md5SearchRequest(gameDomainName, md5), transport), decode).error
    {
      var req := Md5SearchRequest(gameDomainName, md5);
      var raw := HttpGet(req.url, req.json, transport);
      var parsed := Decoded(raw, decode);
      if parsed.Err? {
        return Err(parsed.error);
      }
      r := Ok(Md5SearchPairs(parsed.value));
    }

    /** `set_endorsed` */
    method SetEndorsed(modId: int, version: string, endorsed: bool, transport: Request -> Reply, decode: seq<byte> -> Option<Status>)
      returns (r: Result<Status, Error>)
      requires Valid()
      modifies this`log, limiter
      ensures Valid()
      ensures limiter.spent == old(limiter.spent) + 1
      ensures log == old(log) + DispatchEvents(session, SetEndorsedRequest(gameDomainName, modId, version, endorsed))
      ensures r == Decoded(Outcome(session, SetEndorsedRequest(gameDomainName, modId, version, endorsed), transport), decode)
    {
      var req := SetEndorsedRequest(gameDomainName, modId, version, endorsed);
      var raw := HttpPost(req.url, req.json, transport);
      r := Decoded(raw, decode);
    }

    /** `get_files_and_updates`: the decoded result as a (files, file updates) pair. */
    method GetFilesAndUpdates(modId: int, transport: Request -> Reply, decode: seq<byte> -> Option<FilesResult>)
      returns (r: Result<(seq<File>, seq<FileUpdate>), Error>)
      requires Valid()
      modifies this`log, limiter
      ensures Valid()
      ensures limiter.spent == old(limiter.spent) + 1
      ensures log == old(log) + DispatchEvents(session, FilesAndUpdatesRequest(gameDomainName, modId))
      ensures r.Ok? <==> Decoded(Outcome(session, FilesAndUpdatesRequest(gameDomainName, modId), transport), decode).Ok?
      ensures r.Ok? ==> r.value == FilesAndUpdatesPair(Decoded(Outcome(session, FilesAndUpdatesRequest(gameDomainName, modId), transport), decode).value)
      ensures r.Err? ==> r.error == Decoded(Outcome(session, FilesAndUpdatesRequest(gameDomainName, modId), transport), decode).error
    {
      var req := FilesAndUpdatesRequest(gameDomainName, modId);
      var raw := HttpGet(req.url, req.json, transport);
      var parsed := Decoded(raw, decode);
      if parsed.Err? {
        return Err(parsed.error);
      }
      r := Ok(FilesAndUpdatesPair(parsed.value));
    }

    /** `set_tracked` */
    method SetTracked(modId: int, tracked: bool, transport: Request -> Reply, decode: seq<byte> -> Option<Models.Message>)
      returns (r: Result<Models.Message, Error>)
      requires Valid()
      modifies this`log, limiter
      ensures Valid()
      ensures limiter.spent == old(limiter.spent) + 1
      ensures log == old(log) + DispatchEvents(session, SetTrackedRequest(gameDomainName, modId, tracked))
      ensures r == Decoded(Outcome(session, SetTrackedRequest(gameDomainName, modId, tracked), transport), decode)
    {
      var req := SetTrackedRequest(gameDomainName, modId, tracked);
      var raw;
      if tracked {
        raw := HttpPost(req.url, req.json, transport);
      } else {
        raw := HttpDelete(req.url, req.json, transport);
      }
      r := Decoded(raw, decode);
    }
  }

  /**
   * The `while True` loop of `_get_iter_chunks`: read at most 12 MiB,
   * stop at the first empty read, otherwise yield the chunk.
   */
  method ReadToEnd(stream: ByteStream) returns (chunks: seq<seq<byte>>)
    requires stream.Valid() && stream.pos == 0
    modifies stream
    ensures stream.Valid() && stream.pos == |stream.data|
    ensures Flatten(chunks) == stream.data
    ensures WellChunked(chunks)
    ensures (forall p :: stream.delivery(p) >= CHUNK_SIZE) ==> chunks == FullChunks(stream.data)
  {
    ghost var full := forall p :: stream.delivery(p) >= CHUNK_SIZE;
    ghost var body := stream.data;
    chunks := [];
    FullSoFarStart(body);
    while true
      invariant stream.Valid() && stream.data == body
      invariant Flatten(chunks) == body[..stream.pos]
      invariant WellChunked(chunks)
      invariant full ==> FullSoFar(chunks, body, stream.pos)
      decreases |body| - stream.pos
    {
      ghost var at := stream.pos;
      var chunk := stream.Read(CHUNK_SIZE);
      if chunk == [] {
        break;
      }
      ChunkYielded(chunks, body, at, stream.pos);
      if full {
        FullChunkYielded(chunks, body, at, stream.pos);
      }
      chunks := chunks + [chunk];
    }
    assert body[..stream.pos] == body;
    if full {
      FullSoFarEnd(chunks, body);
    }
  }

  /** The chunks read so far followed by the full chunking of the rest are the full chunking of the body. */
  ghost predicate FullSoFar(chunks: seq<seq<byte>>, body: seq<byte>, at: nat)
    requires at <= |body|
  {
    chunks + FullChunks(body[at..]) == FullChunks(body)
  }

  lemma FullSoFarStart(body: seq<byte>)
    ensures FullSoFar([], body, 0)
  {
    assert body[0..] == body;
  }

  lemma FullSoFarEnd(chunks: seq<seq<byte>>, body: seq<byte>)
    requires FullSoFar(chunks, body, |body|)
    ensures chunks == FullChunks(body)
  {
    assert body[|body|..] == [];
  }

  /** Yielding the bytes read between `at` and `next` keeps the chunks the body read so far. */
  lemma ChunkYielded(chunks: seq<seq<byte>>, body: seq<byte>, at: nat, next: nat)
    requires at < next <= |body| && next - at <= CHUNK_SIZE
    requires Flatten(chunks) == body[..at] && WellChunked(chunks)
    ensures Flatten(chunks + [body[at..next]]) == body[..next]
    ensures WellChunked(chunks + [body[at..next]])
  {
    FlattenAppend(chunks, body[at..next]);
    assert body[..next] == body[..at] + body[at..next];
  }

  /** With full reads, the chunks so far and the full chunking of the rest make up the full chunking. */
  lemma FullChunkYielded(chunks: seq<seq<byte>>, body: seq<byte>, at: nat, next: nat)
    requires at < next <= |body|
    requires next - at == Min(CHUNK_SIZE, |body| - at)
    requires FullSoFar(chunks, body, at)
    ensures FullSoFar(chunks + [body[at..next]], body, next)
  {
    FullChunksStep(body, at, next);
    Regroup(chunks, body[at..next], FullChunks(body[next..]));
  }

  /** Moving one element across a concatenation. */
  lemma Regroup<T>(a: seq<T>, x: T, t: seq<T>)
    ensures a + [x] + t == a + ([x] + t)
  {
  }

  /** One step of the full-chunk loop: the next read takes off the first full chunk of what is left. */
  lemma FullChunksStep(body: seq<byte>, at: nat, next: nat)
    requires at < next <= |body|
    requires next - at == Min(CHUNK_SIZE, |body| - at)
    ensures FullChunks(body[at..]) == [body[at..next]] + FullChunks(body[next..])
  {
    var rest := body[at..];
    if |rest| <= CHUNK_SIZE {
      assert body[at..next] == rest;
      assert body[next..] == [];
    } else {
      assert rest[..CHUNK_SIZE] == body[at..next];
      assert rest[CHUNK_SIZE..] == body[next..];
    }
  }

  /**
   * One client through its whole lifecycle: a call before the first
   * entry, two overlapping entries, a call after exit, a second exit, and
   * a new session after the first. Only the two calls take permits.
   */
  method SessionScenarios(transport: Request -> Reply, decode: seq<byte> -> Option<Mod>)
  {
    var limiter := new Limiter();
    var client := new NexusMods("K", "morrowind", "aionexusmods/0.1", limiter);
    var got := client.GetMod(49565, transport, decode);
    assert got == Err(SessionError(NotStarted));
    var entered := client.Enter();
    assert entered.Ok?;
    entered := client.Enter();
    assert entered == Err(AlreadyOpen) && PhaseOf(client.session) == Open;
    var closed := client.Exit();
    assert closed.Ok?;
    got := client.GetMod(49565, transport, decode);
    assert got == Err(SessionError(UsedAfterClose));
    closed := client.Exit();
    assert closed == Err(UsedAfterClose);
    entered := client.Enter();
    assert entered.Ok? && PhaseOf(client.session) == Open;
    assert limiter.spent == 2;
  }
}
