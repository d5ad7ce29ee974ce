/**
 * The session lifecycle of the NexusMods client (aionexusmods/nexusmods.py):
 * the `_session` field is `None` until the first `async with`, then holds an
 * aiohttp session that `__aexit__` closes. These functions are the state
 * machine on that field's value; the class in module Client applies them.
 */
module Lifecycle {
  import opened Wrappers

  /** The three `RuntimeError`s the lifecycle raises. */
  datatype LifecycleError = NotStarted | UsedAfterClose | AlreadyOpen

  /** The exact text each error carries (including the source's spelling "attemped"). */
  function Message(e: LifecycleError): string {
    match e
    case NotStarted => "attempted to use a session before it was started"
    case UsedAfterClose => "attempted to use a session after it was closed"
    case AlreadyOpen => "attemped to start a new session before closing the previous one"
  }

  /** The three messages tell the three failures apart (they differ in length). */
  lemma MessagesDistinguish(a: LifecycleError, b: LifecycleError)
    ensures Message(a) == Message(b) <==> a == b
  {
    assert |Message(NotStarted)| == 48;
    assert |Message(UsedAfterClose)| == 46;
    assert |Message(AlreadyOpen)| == 63;
  }

  /** The fixed per-host connection limit of the session's connector. */
  const LIMIT_PER_HOST: nat := 28

  /**
   * An aiohttp session as the client configures it: fixed headers,
   * `raise_for_status=True`, a per-host connection limit, and whether it
   * has been closed.
   */
  datatype Session = Session(
    headers: seq<(string, string)>,
    raiseForStatus: bool,
    limitPerHost: nat,
    closed: bool)

  /** The session `__aenter__` installs. */
  function NewSession(apiKey: string, userAgent: string): Session {
    Session(
      [("apikey", apiKey), ("user-agent", userAgent), ("content-type", "application/json")],
      true,
      LIMIT_PER_HOST,
      false)
  }

  /** The tagged view of `_session`. */
  datatype Phase = Unstarted | Open | Closed

  function PhaseOf(st: Option<Session>): Phase {
    match st
    case None => Unstarted
    case Some(s) => if s.closed then Closed else Open
  }

  /**
   * `_active_session`: the gate every network call passes. `None` is
   * checked first, then `closed`; an open session is handed back as it is.
   */
  function Active(st: Option<Session>): (r: Result<Session, LifecycleError>)
    ensures r.Ok? <==> PhaseOf(st) == Open
    ensures r.Ok? ==> st == Some(r.value) && !r.value.closed
    ensures r == Err(NotStarted) <==> st == None
    ensures r == Err(UsedAfterClose) <==> PhaseOf(st) == Closed
    ensures r != Err(AlreadyOpen)
  {
    if st.None? then Err(NotStarted)
    else if st.value.closed then Err(UsedAfterClose)
    else Ok(st.value)
  }

  /**
   * `__aenter__`: refused while a session is open (the existing one is
   * kept); from no session or a closed one, a new open session replaces it.
   */
  function Enter(st: Option<Session>, apiKey: string, userAgent: string): (r: Result<Option<Session>, LifecycleError>)
    ensures r.Err? <==> PhaseOf(st) == Open
    ensures r.Err? ==> r.error == AlreadyOpen
    ensures r.Ok? ==> r.value == Some(NewSession(apiKey, userAgent)) && PhaseOf(r.value) == Open
  {
    if st.Some? && !st.value.closed then Err(AlreadyOpen)
    else Ok(Some(NewSession(apiKey, userAgent)))
  }

  /**
   * `__aexit__`: closes the session obtained through `_active_session`,
   * so it fails with the gate's error when there is no open session.
   */
  function Exit(st: Option<Session>): (r: Result<Option<Session>, LifecycleError>)
    ensures r.Ok? <==> PhaseOf(st) == Open
    ensures r.Err? ==> r.error == Active(st).error && r.error != AlreadyOpen
    ensures r.Ok? ==> st.Some? && r.value == Some(st.value.(closed := true))
    ensures r.Ok? ==> Active(r.value) == Err(UsedAfterClose)
  {
    match Active(st)
    case Err(e) => Err(e)
    case Ok(s) => Ok(Some(s.(closed := true)))
  }

  /** The client operations that touch the lifecycle: `async with` entry and exit, and any network call. */
  datatype Op = OpenOp | CloseOp | UseOp

  function Step(st: Option<Session>, apiKey: string, userAgent: string, op: Op): Result<Option<Session>, LifecycleError> {
    match op
    case OpenOp => Enter(st, apiKey, userAgent)
    case CloseOp => Exit(st)
    case UseOp => if Active(st).Ok? then Ok(st) else Err(Active(st).error)
  }

  /** A sequence of operations, stopping at the first that raises. */
  function Run(st: Option<Session>, apiKey: string, userAgent: string, ops: seq<Op>): Result<Option<Session>, LifecycleError>
    decreases |ops|
  {
    if ops == [] then Ok(st)
    else
      match Step(st, apiKey, userAgent, ops[0])
      case Err(e) => Err(e)
      case Ok(next) => Run(next, apiKey, userAgent, ops[1..])
  }

  /** `n` rounds of `async with client: <one call>`. */
  function Cycles(n: nat): seq<Op> {
    if n == 0 then [] else [OpenOp, UseOp, CloseOp] + Cycles(n - 1)
  }

  /**
   * open, use, close, open, use, close, ... is always legal from a client
   * that has no open session, and leaves it closed.
   */
  lemma {:induction false} CyclesLegal(st: Option<Session>, apiKey: string, userAgent: string, n: nat)
    requires PhaseOf(st) != Open
    ensures Run(st, apiKey, userAgent, Cycles(n)).Ok?
    ensures n == 0 ==> Run(st, apiKey, userAgent, Cycles(n)).value == st
    ensures n > 0 ==> Run(st, apiKey, userAgent, Cycles(n)).value == Some(NewSession(apiKey, userAgent).(closed := true))
    decreases n
  {
    if n > 0 {
      var ops := Cycles(n);
      var live := Some(NewSession(apiKey, userAgent));
      var ended := Some(NewSession(apiKey, userAgent).(closed := true));
      assert ops[0] == OpenOp && ops[1..][0] == UseOp && ops[1..][1..][0] == CloseOp;
      assert ops[1..][1..][1..] == Cycles(n - 1);
      assert Step(st, apiKey, userAgent, OpenOp) == Ok(live);
      assert Step(live, apiKey, userAgent, UseOp) == Ok(live);
      assert Step(live, apiKey, userAgent, CloseOp) == Ok(ended);
      assert Run(st, apiKey, userAgent, ops) == Run(live, apiKey, userAgent, ops[1..]);
      assert Run(live, apiKey, userAgent, ops[1..]) == Run(live, apiKey, userAgent, ops[1..][1..]);
      assert Run(live, apiKey, userAgent, ops[1..][1..]) == Run(ended, apiKey, userAgent, Cycles(n - 1));
      CyclesLegal(ended, apiKey, userAgent, n - 1);
    }
  }

  /**
   * From a client with no open session, a first opening succeeds and the
   * second, without a close in between, fails; the failed opening changes
   * nothing, so the first session stays open.
   */
  lemma DoubleOpenFails(st: Option<Session>, apiKey: string, userAgent: string)
    requires PhaseOf(st) != Open
    ensures Enter(st, apiKey, userAgent).Ok?
    ensures PhaseOf(Enter(st, apiKey, userAgent).value) == Open
    ensures Enter(Enter(st, apiKey, userAgent).value, apiKey, userAgent) == Err(AlreadyOpen)
    ensures Run(st, apiKey, userAgent, [OpenOp, OpenOp]) == Err(AlreadyOpen)
  {
    var ops := [OpenOp, OpenOp];
    assert ops[1..] == [OpenOp] && ops[1..][1..] == [];
  }

  /** Once a client has had a session it never goes back to having none. */
  lemma {:induction false} NeverUnstartedAgain(st: Option<Session>, apiKey: string, userAgent: string, ops: seq<Op>)
    requires PhaseOf(st) != Unstarted
    requires Run(st, apiKey, userAgent, ops).Ok?
    ensures PhaseOf(Run(st, apiKey, userAgent, ops).value) != Unstarted
    decreases |ops|
  {
    if ops != [] {
      var next := Step(st, apiKey, userAgent, ops[0]).value;
      NeverUnstartedAgain(next, apiKey, userAgent, ops[1..]);
    }
  }

  /**
   * A closed session is never reopened: the only step that leaves the
   * closed phase successfully is opening, and it installs a new session.
   */
  lemma ClosedOnlyReplaced(st: Option<Session>, apiKey: string, userAgent: string, op: Op)
    requires PhaseOf(st) == Closed
    requires Step(st, apiKey, userAgent, op).Ok?
    ensures op == OpenOp
    ensures Step(st, apiKey, userAgent, op).value == Some(NewSession(apiKey, userAgent))
  {
  }
}
