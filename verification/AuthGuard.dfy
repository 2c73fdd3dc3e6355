/** What the log of a connection may look like: an automaton both drivers run along with their log, and what it means
    for a log to be accepted by it.
 */
module AuthGuard {
  import opened Ssh2Types

  /** live: a session exists; verified: its host key was accepted; armed: the key-file attempt whose access check
      succeeded last and is still the current one.
   */
  datatype Guard = Guard(live: bool, verified: bool, armed: Option<Attempt>)

  const IDLE := Guard(false, false, None)

  /** The next guard; None if the event must not happen. */
  function Step(g: Guard, e: Event): Option<Guard> {
    match e
    case SessionOpened => if g.live then None else Some(Guard(true, false, None))
    case SessionClosed => if g.live then Some(IDLE) else None
    case HostKeyChecked(ok) => if g.live then Some(Guard(true, ok, None)) else None
    case AccessChecked(a, ok) => Some(g.(armed := if ok then Some(a) else None))
    case AuthCall(a, answer) =>
      if !(g.live && g.verified) || (a.kind.PubkeyFile? && g.armed != Some(a)) then None
      else if answer.WouldBlock? && g.armed == Some(a) then Some(g)
      else Some(g.(armed := None))
    case AgentCall(_, _) => if g.live && g.verified then Some(g.(armed := None)) else None
    case _ => Some(g.(armed := None))
  }

  function Replay(log: Log): Option<Guard> {
    if log == [] then Some(IDLE)
    else
      var g := Replay(log[..|log| - 1]);
      if g.None? then None else Step(g.value, log[|log| - 1])
  }

  lemma ReplayAppend(log: Log, e: Event)
    ensures Replay(log + [e]) == if Replay(log).None? then None else Step(Replay(log).value, e)
  {
    assert (log + [e])[..|log|] == log;
  }

  predicate IsAuthCall(e: Event) {
    e.AuthCall? || e.AgentCall?
  }

  /** From the host key's acceptance at k to i nothing ended the session or judged its host key again. */
  predicate SameVerifiedSession(log: Log, k: int, i: int) {
    && 0 <= k < i < |log| && log[k] == HostKeyChecked(true)
    && forall j | k < j < i :: !log[j].SessionOpened? && !log[j].SessionClosed? && !log[j].HostKeyChecked?
  }

  /** The attempt a passed its own check at k, and up to i it was only asked for again. */
  predicate CheckedSince(log: Log, a: Attempt, k: int, i: int) {
    && 0 <= k < i <= |log| && log[k] == AccessChecked(a, true)
    && forall j | k < j < i :: log[j] == AuthCall(a, WouldBlock)
  }

  predicate KeepsSession(e: Event) {
    !e.SessionOpened? && !e.SessionClosed? && !e.HostKeyChecked?
  }

  /** Where the guard's knowledge comes from. */
  lemma {:induction false} GuardOrigin(log: Log) returns (verifiedAt: nat, armedAt: nat)
    requires Replay(log).Some?
    ensures var g := Replay(log).value;
            && (g.verified ==> g.live && verifiedAt < |log| && log[verifiedAt] == HostKeyChecked(true)
                               && forall j | verifiedAt < j < |log| :: KeepsSession(log[j]))
            && (g.armed.Some? ==> CheckedSince(log, g.armed.value, armedAt, |log|))
  {
    verifiedAt, armedAt := 0, 0;
    if log != [] {
      var n := |log| - 1;
      verifiedAt, armedAt := GuardOrigin(log[..n]);
      var g, e := Replay(log[..n]).value, log[n];
      if e.HostKeyChecked? { verifiedAt := n; }
      if e.AccessChecked? { armedAt := n; }
    }
  }

  lemma {:induction false} ReplayPrefix(log: Log, n: nat)
    requires n <= |log| && Replay(log).Some?
    ensures Replay(log[..n]).Some?
    decreases |log|
  {
    if n < |log| {
      var m := |log| - 1;
      ReplayPrefix(log[..m], n);
      assert log[..m][..n] == log[..n];
    } else {
      assert log[..n] == log;
    }
  }

  /** In an accepted log every authentication call is made on a session whose host key was accepted, and every call
      with key files follows that attempt's own access check with nothing but repetitions of the call in between.
   */
  lemma GuardedCalls(log: Log, i: nat) returns (verifiedAt: nat, checkedAt: nat)
    requires Replay(log).Some? && i < |log| && IsAuthCall(log[i])
    ensures SameVerifiedSession(log, verifiedAt, i)
    ensures log[i].AuthCall? && log[i].attempt.kind.PubkeyFile? ==> CheckedSince(log, log[i].attempt, checkedAt, i)
  {
    ReplayPrefix(log, i);
    ReplayPrefix(log, i + 1);
    assert log[..i + 1] == log[..i] + [log[i]];
    ReplayAppend(log[..i], log[i]);
    verifiedAt, checkedAt := GuardOrigin(log[..i]);
    forall j | verifiedAt < j < i
      ensures !log[j].SessionOpened? && !log[j].SessionClosed? && !log[j].HostKeyChecked?
    {
      assert KeepsSession(log[..i][j]);
    }
  }

  /** Every authentication call of a log is made on a session whose host key was accepted, and every call with key
      files after that attempt's own check.
   */
  ghost predicate CallsGuarded(log: Log) {
    forall i | 0 <= i < |log| && IsAuthCall(log[i]) ::
      && (exists k :: SameVerifiedSession(log, k, i))
      && (log[i].AuthCall? && log[i].attempt.kind.PubkeyFile? ==> exists k :: CheckedSince(log, log[i].attempt, k, i))
  }

  lemma AcceptedLogIsGuarded(log: Log)
    requires Replay(log).Some?
    ensures CallsGuarded(log)
  {
    forall i | 0 <= i < |log| && IsAuthCall(log[i])
      ensures exists k :: SameVerifiedSession(log, k, i)
      ensures log[i].AuthCall? && log[i].attempt.kind.PubkeyFile? ==>
        exists k :: CheckedSince(log, log[i].attempt, k, i)
    {
      var v, c := GuardedCalls(log, i);
    }
  }

  // ---- an agent that is released late --------------------------------------------------------------------------

  predicate IsBlockedAgentCall(e: Event) {
    e.AgentCall? && e.answer.WouldBlock?
  }

  /** The last event since the first n is a call of an agent that has to be repeated. */
  predicate AwaitsAgent(n: nat, log: Log) {
    |log| > n && IsBlockedAgentCall(log[|log| - 1])
  }

  /** The last events since the first n are a call of an agent that has to be repeated and the end of the session. */
  predicate ClosedAwaitingAgent(n: nat, log: Log) {
    |log| >= n + 2 && log[|log| - 1].SessionClosed? && IsBlockedAgentCall(log[|log| - 2])
  }

  /** Nothing since the first n events awaits an agent or was closed while awaiting one. */
  predicate NoneAwaited(n: nat, log: Log) {
    n <= |log| && !AwaitsAgent(n, log) && !ClosedAwaitingAgent(n, log)
  }

  // ---- the completed part of a log -----------------------------------------------------------------------------

  /** Whether the event belongs to the authentication history: calls that must be repeated do not. */
  predicate Completes(e: Event) {
    match e
    case AuthCall(_, answer) => !answer.WouldBlock?
    case AgentCall(_, answer) => !answer.WouldBlock?
    case SessionOpened | SessionClosed | HostKeyChecked(_) => false
    case _ => true
  }

  function Completed(log: Log): Log {
    if log == [] then []
    else
      var h := Completed(log[..|log| - 1]);
      if Completes(log[|log| - 1]) then h + [log[|log| - 1]] else h
  }

  lemma CompletedAppend(log: Log, e: Event)
    ensures Completed(log + [e]) == if Completes(e) then Completed(log) + [e] else Completed(log)
  {
    assert (log + [e])[..|log|] == log;
  }
}
