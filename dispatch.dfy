/**
 * What a call through `_get`, `_post`, `_delete` or `_get_iter_chunks`
 * produces, as functions of the session and of the remote side, together
 * with the order of the events it causes (a limiter permit, then maybe a
 * request on the wire) and the specification of chunked reading.
 */
module Dispatch {
  import opened Wrappers
  import opened Lifecycle
  import opened Endpoints

  newtype byte = x: int | 0 <= x < 256

  /**
   * What the transport makes of a request: the response body, or an HTTP
   * error status (the session has `raise_for_status=True`).
   */
  datatype Reply = Delivered(body: seq<byte>) | HttpError(status: int)

  /** The failures a client call can raise, in three disjoint kinds plus decoding. */
  datatype Error =
    | SessionError(reason: LifecycleError)
    | RemoteError(status: int)
    | DecodeError

  /**
   * The result of one dispatch: the session gate first, then the
   * transport's reply.
   */
  function Outcome(st: Option<Session>, req: Request, transport: Request -> Reply): (r: Result<seq<byte>, Error>)
    ensures r.Ok? <==> PhaseOf(st) == Open && transport(req).Delivered?
    ensures r.Ok? ==> r.value == transport(req).body
    ensures r.Err? && r.error.SessionError? <==> PhaseOf(st) != Open
    ensures r.Err? && r.error.SessionError? ==> r.error.reason == Active(st).error
    ensures r.Err? && r.error.RemoteError? ==> transport(req) == HttpError(r.error.status)
    ensures r.Err? ==> !r.error.DecodeError?
  {
    match Active(st)
    case Err(e) => Err(SessionError(e))
    case Ok(_) =>
      match transport(req)
      case Delivered(body) => Ok(body)
      case HttpError(status) => Err(RemoteError(status))
  }

  /** `parse_raw_as` on a dispatch result: errors pass through unchanged, bytes are decoded. */
  function Decoded<T>(raw: Result<seq<byte>, Error>, decode: seq<byte> -> Option<T>): (r: Result<T, Error>)
    ensures r.Ok? <==> raw.Ok? && decode(raw.value).Some?
    ensures r.Ok? ==> decode(raw.value) == Some(r.value)
    ensures raw.Err? ==> r == Err(raw.error)
    ensures raw.Ok? && r.Err? ==> r.error == DecodeError
  {
    match raw
    case Err(e) => Err(e)
    case Ok(bytes) =>
      match decode(bytes)
      case None => Err(DecodeError)
      case Some(v) => Ok(v)
  }

  /** What happens outside the client during a call: a permit is taken, a request goes on the wire. */
  datatype Event = Permit | Sent(req: Request)

  /**
   * The events of one dispatch: the permit always, and the request only
   * when the session gate let it through.
   */
  function DispatchEvents(st: Option<Session>, req: Request): (evs: seq<Event>)
    ensures |evs| > 0 && evs[0] == Permit
    ensures |evs| == 2 <==> PhaseOf(st) == Open
    ensures |evs| == 1 <==> PhaseOf(st) != Open
    ensures |evs| == 2 ==> evs[1] == Sent(req)
  {
    if Active(st).Ok? then [Permit, Sent(req)] else [Permit]
  }

  /** No request reaches the transport unless a permit was taken right before it. */
  ghost predicate EveryRequestPermitted(log: seq<Event>) {
    forall i :: 0 <= i < |log| && log[i].Sent? ==> 0 < i && log[i - 1] == Permit
  }

  function PermitCount(log: seq<Event>): nat {
    if log == [] then 0 else PermitCount(log[..|log| - 1]) + (if log[|log| - 1] == Permit then 1 else 0)
  }

  function SentCount(log: seq<Event>): nat {
    if log == [] then 0 else SentCount(log[..|log| - 1]) + (if log[|log| - 1].Sent? then 1 else 0)
  }

  /**
   * A dispatch keeps every request permitted, takes exactly one permit,
   * and puts at most one request on the wire.
   */
  lemma DispatchKeepsPermitted(log: seq<Event>, st: Option<Session>, req: Request)
    requires EveryRequestPermitted(log)
    ensures EveryRequestPermitted(log + DispatchEvents(st, req))
    ensures PermitCount(log + DispatchEvents(st, req)) == PermitCount(log) + 1
    ensures SentCount(log + DispatchEvents(st, req)) == SentCount(log) + (if PhaseOf(st) == Open then 1 else 0)
  {
    var l1 := log + [Permit];
    assert l1[..|l1| - 1] == log;
    if PhaseOf(st) == Open {
      var l2 := log + [Permit, Sent(req)];
      assert l2[..|l2| - 1] == l1;
    }
  }

  /** Over any history, requests on the wire never outnumber permits taken. */
  lemma {:induction false} SentBoundedByPermits(log: seq<Event>)
    requires EveryRequestPermitted(log)
    ensures SentCount(log) <= PermitCount(log)
    decreases |log|
  {
    if log != [] {
      var n := |log|;
      var prefix := log[..n - 1];
      assert EveryRequestPermitted(prefix) by {
        forall i | 0 <= i < |prefix| && prefix[i].Sent? ensures 0 < i && prefix[i - 1] == Permit {
          assert log[i] == prefix[i];
        }
      }
      if log[n - 1].Sent? {
        var before := log[..n - 2];
        assert prefix[..|prefix| - 1] == before;
        assert EveryRequestPermitted(before) by {
          forall i | 0 <= i < |before| && before[i].Sent? ensures 0 < i && before[i - 1] == Permit {
            assert log[i] == before[i];
          }
        }
        SentBoundedByPermits(before);
      } else {
        SentBoundedByPermits(prefix);
      }
    }
  }

  /** `response.content.read(1024 * 1024 * 12)`: at most 12 MiB per read. */
  const CHUNK_SIZE: nat := 1024 * 1024 * 12

  /** The bytes of the chunks, in order. */
  function Flatten(chunks: seq<seq<byte>>): seq<byte> {
    if chunks == [] then [] else chunks[0] + Flatten(chunks[1..])
  }

  /** Every chunk holds at least one byte and at most `CHUNK_SIZE`. */
  predicate WellChunked(chunks: seq<seq<byte>>) {
    forall i :: 0 <= i < |chunks| ==> 0 < |chunks[i]| <= CHUNK_SIZE
  }

  /** Appending one chunk appends its bytes. */
  lemma {:induction false} FlattenAppend(chunks: seq<seq<byte>>, c: seq<byte>)
    ensures Flatten(chunks + [c]) == Flatten(chunks) + c
    decreases |chunks|
  {
    if chunks == [] {
      assert [] + [c] == [c];
    } else {
      assert (chunks + [c])[1..] == chunks[1..] + [c];
      FlattenAppend(chunks[1..], c);
    }
  }

  /** The chunks a stream yields when every read returns all it may: full chunks, then the rest. */
  function FullChunks(body: seq<byte>): (r: seq<seq<byte>>)
    ensures Flatten(r) == body && WellChunked(r)
    ensures forall i :: 0 <= i < |r| - 1 ==> |r[i]| == CHUNK_SIZE
    decreases |body|
  {
    if body == [] then []
    else if |body| <= CHUNK_SIZE then [body]
    else
      assert body == body[..CHUNK_SIZE] + body[CHUNK_SIZE..];
      [body[..CHUNK_SIZE]] + FullChunks(body[CHUNK_SIZE..])
  }

  /**
   * The full chunking is the only well-formed chunking of a body whose
   * chunks before the last are all exactly `CHUNK_SIZE` long.
   */
  lemma {:induction false} FullChunksUnique(chunks: seq<seq<byte>>)
    requires WellChunked(chunks)
    requires forall i :: 0 <= i < |chunks| - 1 ==> |chunks[i]| == CHUNK_SIZE
    ensures FullChunks(Flatten(chunks)) == chunks
    decreases |chunks|
  {
    if chunks != [] {
      var rest := chunks[1..];
      FullChunksUnique(rest);
      if rest != [] {
        assert |Flatten(rest)| > 0 by {
          assert Flatten(rest) == rest[0] + Flatten(rest[1..]);
        }
        var body := Flatten(chunks);
        assert body == chunks[0] + Flatten(rest);
        assert body[..CHUNK_SIZE] == chunks[0];
        assert body[CHUNK_SIZE..] == Flatten(rest);
      } else {
        assert Flatten(chunks) == chunks[0];
      }
    }
  }
}
