/** The client's two flags, poll_op_in_progress and connect_in_progress, and its session, as steps of any number of
    threads over one lock (src/SSH2Client.h, src/SSH2Client.cpp, src/SFTPClient.cpp, src/SftpPollOperation.cpp).  The
    lock is given up while a connect or a poll operation runs code of the host key store or the identity provider, and
    while an SFTP method runs code of its stream.
 */
module Reservation {
  import opened Ssh2Types

  /** connect() of an SFTPClient is sftpConnect(), and only an SFTPClient has poll operations and SFTP methods. */
  datatype Client = SshClient | SftpClient

  datatype Call = Reserve | Connect | SftpConnect | Operate | Disconnect | Drive(op: nat) | Destroy(op: nat)

  /** Where a thread is in its call; mine is the session the call works on. */
  datatype Pc =
    | Waiting(call: Call)                                       // for the lock
    | Testing(call: Call)                                       // with the lock, before the flags are looked at
    | Reserved                                                  // startPollGetFile() before it creates the operation
    | FlagSet                                                   // sshConnect() before the reservation is checked
    | Refused                                                   // sshConnect() that was refused, its flag still set
    | Connecting(flag: bool, mine: Option<nat>, free: bool)     // sshConnect() or, without the flag, sftpConnect()
    | Operating(session: nat, free: bool)                       // an SFTP method on a session that was up
    | Driving(op: nat, free: bool)                              // continuePoll() or abort()

  /** A poll operation: whether it holds the reservation, whether it has ended, and the session it works on. */
  datatype Operation = Operation(reserved: bool, closed: bool, mine: Option<nat>)

  /** grants, connects and disconnects count how often each was let through, sessions how many were created. */
  datatype State = State(
    client: Client, lock: Option<nat>, connect: bool, poll: bool, session: Option<nat>, sftp: bool,
    threads: map<nat, Pc>, ops: map<nat, Operation>, created: nat, grants: nat, connects: nat, disconnects: nat,
    sessions: nat)

  function Start(client: Client): State {
    State(client, None, false, false, None, false, map[], map[], 0, 0, 0, 0, 0)
  }

  datatype Step =
    | Begin(t: nat, call: Call)
    | Acquire(t: nat)
    | Test(t: nat)
    | CheckReserved(t: nat)
    | Construct(t: nat)
    | OpenSession(t: nat)
    | AdoptSession(t: nat)
    | OpenSftp(t: nat)
    | GiveUpLock(t: nat)
    | TakeLockBack(t: nat)
    | Leave(t: nat)
    | Close(t: nat)
    | Drop(t: nat)                                              // disconnects, then leaves or closes

  function CallOf(pc: Pc): Option<Call> {
    match pc
    case Waiting(call) => Some(call)
    case Testing(call) => Some(call)
    case Driving(op, _) => Some(Drive(op))
    case _ => None
  }

  predicate HasLock(pc: Pc) {
    match pc
    case Testing(_) | FlagSet | Refused => true
    case Connecting(_, _, free) => !free
    case Operating(_, free) => !free
    case Driving(_, free) => !free
    case Waiting(_) | Reserved => false
  }

  /** The operations a thread holds a reference to. */
  predicate Uses(pc: Pc, op: nat) {
    CallOf(pc) == Some(Drive(op)) || CallOf(pc) == Some(Destroy(op))
  }

  predicate Unused(s: State, op: nat) {
    forall t | t in s.threads :: !Uses(s.threads[t], op)
  }

  /** The calls a client has. */
  predicate Has(client: Client, call: Call) {
    match call
    case Connect => client.SshClient?
    case Disconnect => true
    case _ => client.SftpClient?
  }

  /** A call can be made; an operation is destroyed when its last reference is dropped. */
  predicate CanBegin(s: State, t: nat, call: Call) {
    && t !in s.threads && Has(s.client, call)
    && match call
       case Drive(op) => op in s.ops && forall u | u in s.threads :: CallOf(s.threads[u]) != Some(Destroy(op))
       case Destroy(op) => op in s.ops && Unused(s, op)
       case _ => true
  }

  function Move(s: State, t: nat, pc: Pc): State {
    s.(threads := s.threads[t := pc])
  }

  /** The end of a call, with the lock given back. */
  function Return(s: State, t: nat): State {
    s.(lock := None, threads := s.threads - {t})
  }

  function Disconnected(s: State): State {
    s.(session := None, sftp := false)
  }

  function NewSession(s: State): State {
    s.(session := Some(s.sessions), sftp := false, sessions := s.sessions + 1)
  }

  /** closeIntern(): only the operation's own reservation is released. */
  function CloseOp(s: State, op: nat): State
    requires op in s.ops
  {
    s.(poll := s.poll && !s.ops[op].reserved, ops := s.ops[op := Operation(false, true, s.ops[op].mine)])
  }

  /** sftpConnectUnlocked(): an old SFTP session is ended with its connection. */
  function SftpConnectTested(s: State): (State, Option<Pc>) {
    if s.poll then (s, None)
    else ((if s.sftp then Disconnected(s) else s).(connects := s.connects + 1), Some(Connecting(false, None, false)))
  }

  /** What a call changes and where its thread goes once it has the lock; None if it is over. */
  function Answer(s: State, call: Call): (answer: (State, Option<Pc>))
    requires (call.Drive? ==> call.op in s.ops) && (call.Destroy? ==> call.op in s.ops)
    ensures answer.0.threads == s.threads && answer.0.lock == s.lock && answer.0.created == s.created
    ensures answer.0.client == s.client && answer.0.sessions == s.sessions
    ensures answer.0.session == s.session || answer.0.session.None?
    ensures answer.0.ops == if call.Destroy? then s.ops - {call.op} else s.ops
  {
    match call
    case Reserve =>
      if s.poll || s.connect then (s, None) else (s.(poll := true, grants := s.grants + 1), Some(Reserved))
    case Connect => if s.connect then (s, None) else (s.(connect := true), Some(FlagSet))
    case SftpConnect => SftpConnectTested(s)
    case Operate =>
      // a session that is up is used without a look at the flags
      if s.sftp && s.session.Some? then (s, Some(Operating(s.session.value, false))) else SftpConnectTested(s)
    case Disconnect =>
      (if s.poll || s.connect then s else Disconnected(s.(disconnects := s.disconnects + 1)), None)
    case Drive(op) => (s, if s.ops[op].closed then None else Some(Driving(op, false)))
    case Destroy(op) => (CloseOp(s, op).(ops := s.ops - {op}), None)
  }

  /** What a thread does first once it has the lock. */
  function Tested(s: State, t: nat, call: Call): State
    requires (call.Drive? ==> call.op in s.ops) && (call.Destroy? ==> call.op in s.ops)
  {
    var (s', pc) := Answer(s, call);
    if pc.None? then Return(s', t)
    else Move(s'.(lock := if pc.value.Reserved? then None else s.lock), t, pc.value)
  }

  predicate Yields(step: Step) {
    step.GiveUpLock? || step.TakeLockBack?
  }

  predicate Opens(step: Step) {
    step.OpenSession? || step.AdoptSession? || step.OpenSftp?
  }

  predicate Ends(step: Step) {
    step.Leave? || step.Close? || step.Drop?
  }

  /** A thread in a call that gives the lock up and takes it back. */
  function WithFree(pc: Pc, free: bool): Option<Pc> {
    match pc
    case Connecting(flag, Some(mine), f) => if f != free then Some(Connecting(flag, Some(mine), free)) else None
    case Operating(id, f) => if f != free then Some(Operating(id, free)) else None
    case Driving(op, f) => if f != free then Some(Driving(op, free)) else None
    case _ => None
  }

  /** The steps that make the lock change hands within a call. */
  function Yielded(s: State, step: Step, pc: Pc): Option<State>
    requires Yields(step)
  {
    var pc' := WithFree(pc, step.GiveUpLock?);
    if pc'.None? || (step.TakeLockBack? && s.lock.Some?) then None
    else Some(Move(s.(lock := if step.GiveUpLock? then None else Some(step.t)), step.t, pc'.value))
  }

  /** The steps that give a thread with the lock its session. */
  function Opened(s: State, step: Step, pc: Pc): Option<State>
    requires Opens(step)
  {
    var s' := if step.OpenSession? then NewSession(s) else if step.OpenSftp? then s.(sftp := true) else s;
    if step.OpenSftp? && s.session.None? then None
    else
      match pc
      case Connecting(flag, mine, false) =>
        if step.OpenSession? then Some(Move(s', step.t, Connecting(flag, s'.session, false)))
        else if step.OpenSftp? && mine.Some? then Some(s')
        else None
      case Driving(op, false) =>
        if op !in s.ops || (step.AdoptSession? && (s.session.None? || s.ops[op].mine.Some?)) then None
        else if step.OpenSftp? then if s.ops[op].mine.Some? then Some(s') else None
        else Some(s'.(ops := s.ops[op := s.ops[op].(mine := s'.session)]))
      case _ => None
  }

  /** What the end of a call changes, the lock aside; None if the thread is not at the end of one. */
  function AtEnd(s: State, step: Step, pc: Pc): (ending: Option<State>)
    requires Ends(step)
    ensures ending.Some? ==> ending.value.threads == s.threads && ending.value.lock == s.lock && HasLock(pc)
    ensures ending.Some? ==> ending.value.client == s.client && ending.value.sessions == s.sessions
  {
    match pc
    case Refused => if step.Leave? then Some(s.(connect := false)) else None
    case Connecting(flag, mine, false) =>
      if step.Close? then None
      else Some((if step.Drop? then Disconnected(s) else s).(connect := s.connect && !flag))
    case Operating(_, false) => if step.Close? then None else Some(if step.Drop? then Disconnected(s) else s)
    case Driving(op, false) =>
      if step.Leave? then Some(s)
      else if op !in s.ops then None
      else Some(CloseOp(if step.Drop? then Disconnected(s) else s, op))
    case _ => None
  }

  /** The steps that end a call of a thread with the lock. */
  function Ended(s: State, step: Step, pc: Pc): Option<State>
    requires Ends(step)
  {
    var ending := AtEnd(s, step, pc);
    if ending.None? then None else Some(Return(ending.value, step.t))
  }

  /** The steps that let a call in, or not. */
  function Entered(s: State, step: Step, pc: Pc): Option<State> {
    var t := step.t;
    match step
    case Acquire(_) =>
      if pc.Waiting? && s.lock.None? then Some(Move(s.(lock := Some(t)), t, Testing(pc.call))) else None
    case Test(_) =>
      if pc.Testing? && (pc.call.Drive? ==> pc.call.op in s.ops) && (pc.call.Destroy? ==> pc.call.op in s.ops)
      then Some(Tested(s, t, pc.call)) else None
    case CheckReserved(_) =>
      if !pc.FlagSet? then None
      else if s.poll then Some(Move(s, t, Refused))
      else Some(Move(s.(connects := s.connects + 1), t, Connecting(true, None, false)))
    case Construct(_) =>
      if !pc.Reserved? then None
      else
        Some(s.(ops := s.ops[s.created := Operation(true, false, None)], created := s.created + 1,
                threads := s.threads - {t}))
    case _ => None
  }

  /** The next state; None if the step is not possible. */
  function Next(s: State, step: Step): Option<State> {
    if step.Begin? then
      if CanBegin(s, step.t, step.call) then Some(Move(s, step.t, Waiting(step.call))) else None
    else if step.t !in s.threads then None
    else if Yields(step) then Yielded(s, step, s.threads[step.t])
    else if Opens(step) then Opened(s, step, s.threads[step.t])
    else if Ends(step) then Ended(s, step, s.threads[step.t])
    else Entered(s, step, s.threads[step.t])
  }

  // ---- what every step keeps -----------------------------------------------------------------------------------

  /** Who a reservation belongs to: the thread that made it or the operation it was handed to. */
  datatype Holder = ThreadHolds(t: nat) | OperationHolds(op: nat)

  predicate Holds(s: State, h: Holder) {
    match h
    case ThreadHolds(t) => t in s.threads && s.threads[t].Reserved?
    case OperationHolds(op) => op in s.ops && s.ops[op].reserved
  }

  predicate HasFlag(pc: Pc) {
    pc.FlagSet? || pc.Refused? || (pc.Connecting? && pc.flag)
  }

  ghost predicate Flagged(s: State, t: nat) {
    t in s.threads && HasFlag(s.threads[t])
  }

  ghost predicate LockInv(s: State) {
    forall t :: (t in s.threads && HasLock(s.threads[t])) <==> s.lock == Some(t)
  }

  ghost predicate PollInv(s: State) {
    && (s.poll <==> exists h :: Holds(s, h))
    && forall a, b | Holds(s, a) && Holds(s, b) :: a == b
  }

  ghost predicate ConnectInv(s: State) {
    && (s.connect <==> exists t :: Flagged(s, t))
    && (forall a, b | Flagged(s, a) && Flagged(s, b) :: a == b)
    && forall t | t in s.threads && s.threads[t].Connecting? && s.threads[t].flag :: !s.poll
  }

  ghost predicate OpsInv(s: State) {
    && (forall op | op in s.ops :: op < s.created && (s.ops[op].closed <==> !s.ops[op].reserved))
    && forall t | t in s.threads :: CallInv(s, t)
  }

  /** A thread's operation exists, and a thread that destroys it is the only one that uses it. */
  ghost predicate CallInv(s: State, t: nat)
    requires t in s.threads
  {
    match CallOf(s.threads[t])
    case Some(Drive(op)) => op in s.ops
    case Some(Destroy(op)) => op in s.ops && forall u | u in s.threads && u != t :: !Uses(s.threads[u], op)
    case _ => true
  }

  ghost predicate Inv(s: State) {
    LockInv(s) && PollInv(s) && ConnectInv(s) && OpsInv(s)
  }

  /** A step within a call changes the lock, the session and where the thread is, but no flag and no reservation. */
  ghost predicate Within(s: State, s': State, t: nat) {
    && s'.connect == s.connect && s'.poll == s.poll && s'.created == s.created && s'.client == s.client
    && s'.grants == s.grants && s'.connects == s.connects && s'.disconnects == s.disconnects
    && t in s.threads && t in s'.threads && s'.threads == s.threads[t := s'.threads[t]]
    && CallOf(s'.threads[t]) == CallOf(s.threads[t]) && HasFlag(s'.threads[t]) == HasFlag(s.threads[t])
    && !s.threads[t].Reserved? && !s'.threads[t].Reserved?
    && (s'.threads[t].Connecting? <==> s.threads[t].Connecting?)
    && s'.ops.Keys == s.ops.Keys
    && forall op | op in s.ops :: s'.ops[op].reserved == s.ops[op].reserved && s'.ops[op].closed == s.ops[op].closed
  }

  lemma YieldedWithin(s: State, step: Step, s': State)
    requires LockInv(s) && Next(s, step) == Some(s') && Yields(step)
    ensures Within(s, s', step.t)
  {
  }

  lemma YieldKeepsLock(s: State, step: Step, s': State)
    requires LockInv(s) && Next(s, step) == Some(s') && Yields(step)
    ensures LockInv(s')
  {
    YieldedWithin(s, step, s');
    assert HasLock(s'.threads[step.t]) <==> s'.lock == Some(step.t);
  }

  lemma OpenedWithin(s: State, step: Step, s': State)
    requires LockInv(s) && Next(s, step) == Some(s') && Opens(step)
    ensures Within(s, s', step.t) && LockInv(s')
  {
  }

  lemma StepWithin(s: State, step: Step, s': State)
    requires LockInv(s) && Next(s, step) == Some(s') && (Yields(step) || Opens(step))
    ensures Within(s, s', step.t) && LockInv(s')
  {
    if Yields(step) {
      YieldedWithin(s, step, s');
      YieldKeepsLock(s, step, s');
    } else {
      OpenedWithin(s, step, s');
    }
  }

  lemma WithinKept(s: State, s': State, t: nat)
    requires Inv(s) && Within(s, s', t) && LockInv(s')
    ensures Inv(s')
  {
    assert forall h :: Holds(s', h) <==> Holds(s, h);
    assert forall u :: Flagged(s', u) <==> Flagged(s, u);
    forall u | u in s'.threads
      ensures CallInv(s', u)
    {
      assert CallInv(s, u);
    }
  }

  lemma TestKeepsLock(s: State, step: Step, s': State)
    requires Inv(s) && Next(s, step) == Some(s') && step.Test?
    ensures LockInv(s')
  {
  }

  lemma EndKeepsLock(s: State, step: Step, s': State)
    requires Inv(s) && Next(s, step) == Some(s') && Ends(step)
    ensures LockInv(s')
  {
  }

  lemma LockKept(s: State, step: Step, s': State)
    requires Inv(s) && Next(s, step) == Some(s') && !Yields(step) && !Opens(step)
    ensures LockInv(s')
  {
    if step.Test? { TestKeepsLock(s, step, s'); }
    if Ends(step) { EndKeepsLock(s, step, s'); }
  }

  lemma OthersStayInTest(s: State, step: Step, s': State, u: nat)
    requires LockInv(s) && Next(s, step) == Some(s') && step.Test? && u != step.t
    ensures (u in s'.threads <==> u in s.threads) && (u in s.threads ==> s'.threads[u] == s.threads[u])
  {
  }

  /** Only the stepping thread moves. */
  lemma OthersStay(s: State, step: Step, s': State)
    requires LockInv(s) && Next(s, step) == Some(s') && !Yields(step) && !Opens(step)
    ensures forall u | u != step.t ::
      (u in s'.threads <==> u in s.threads) && (u in s.threads ==> s'.threads[u] == s.threads[u])
  {
    if step.Test? {
      forall u: nat | u != step.t
        ensures (u in s'.threads <==> u in s.threads) && (u in s.threads ==> s'.threads[u] == s.threads[u])
      {
        OthersStayInTest(s, step, s', u);
      }
    }
  }

  /** Operations only disappear when the stepping thread destroys them. */
  lemma OpsStay(s: State, step: Step, s': State, op: nat)
    requires LockInv(s) && Next(s, step) == Some(s') && !Yields(step) && !Opens(step) && op in s.ops
    ensures op in s'.ops || (step.Test? && step.t in s.threads && CallOf(s.threads[step.t]) == Some(Destroy(op)))
  {
  }

  lemma OtherCallKept(s: State, step: Step, s': State, t: nat)
    requires Inv(s) && Next(s, step) == Some(s') && !Yields(step) && !Opens(step) && t in s'.threads && t != step.t
    ensures CallInv(s', t)
  {
    OthersStay(s, step, s');
    assert CallInv(s, t);
    if step.Test? { assert CallInv(s, step.t); }
    var call := CallOf(s.threads[t]);
    if call.Some? && (call.value.Drive? || call.value.Destroy?) { OpsStay(s, step, s', call.value.op); }
  }

  lemma AnswerCalls(s: State, call: Call)
    requires (call.Drive? ==> call.op in s.ops) && (call.Destroy? ==> call.op in s.ops)
    ensures var pc := Answer(s, call).1;
            pc.Some? && CallOf(pc.value).Some? ==> call.Drive? && CallOf(pc.value) == Some(call)
  {
  }

  lemma TestKeepsCall(s: State, step: Step, s': State)
    requires Inv(s) && Next(s, step) == Some(s') && step.Test? && step.t in s'.threads
    ensures CallInv(s', step.t)
  {
    assert CallInv(s, step.t);
    AnswerCalls(s, s.threads[step.t].call);
  }

  lemma OwnCallKept(s: State, step: Step, s': State)
    requires Inv(s) && Next(s, step) == Some(s') && !Yields(step) && !Opens(step) && step.t in s'.threads
    ensures CallInv(s', step.t)
  {
    OthersStay(s, step, s');
    assert step.t in s.threads ==> CallInv(s, step.t);
    if step.Test? { TestKeepsCall(s, step, s'); }
  }

  lemma TestKeepsOps(s: State, step: Step, s': State)
    requires Inv(s) && Next(s, step) == Some(s') && step.Test?
    ensures s'.created == s.created && forall op | op in s'.ops :: op in s.ops && s'.ops[op] == s.ops[op]
  {
  }

  /** The end of a call creates no operation, and an operation it changes is then closed. */
  lemma OpsOfEnding(s: State, step: Step, pc: Pc, ending: State, op: nat)
    requires Ends(step) && AtEnd(s, step, pc) == Some(ending) && op in ending.ops
    ensures ending.created == s.created && op in s.ops
    ensures ending.ops[op] == s.ops[op] || (ending.ops[op].closed && !ending.ops[op].reserved)
  {
  }

  lemma OpsAtEnd(s: State, step: Step, s': State, op: nat)
    requires Next(s, step) == Some(s') && Ends(step) && op in s'.ops
    ensures s'.created == s.created && op in s.ops
    ensures s'.ops[op] == s.ops[op] || (s'.ops[op].closed && !s'.ops[op].reserved)
  {
    OpsOfEnding(s, step, s.threads[step.t], AtEnd(s, step, s.threads[step.t]).value, op);
  }

  lemma OpsNumbered(s: State, step: Step, s': State, op: nat)
    requires Inv(s) && Next(s, step) == Some(s') && !Yields(step) && !Opens(step) && op in s'.ops
    ensures op < s'.created && (s'.ops[op].closed <==> !s'.ops[op].reserved)
  {
    if step.Test? { TestKeepsOps(s, step, s'); } else if Ends(step) { OpsAtEnd(s, step, s', op); }
  }

  lemma OpsKept(s: State, step: Step, s': State)
    requires Inv(s) && Next(s, step) == Some(s') && !Yields(step) && !Opens(step)
    ensures OpsInv(s')
  {
    forall op | op in s'.ops
      ensures op < s'.created && (s'.ops[op].closed <==> !s'.ops[op].reserved)
    {
      OpsNumbered(s, step, s', op);
    }
    forall t | t in s'.threads
      ensures CallInv(s', t)
    {
      if t == step.t { OwnCallKept(s, step, s'); } else { OtherCallKept(s, step, s', t); }
    }
  }

  /** The operation a step closes or destroys. */
  function ClosedBy(s: State, step: Step): Option<nat> {
    if step.t !in s.threads then None
    else if (step.Close? || step.Drop?) && s.threads[step.t].Driving? then Some(s.threads[step.t].op)
    else if step.Test? && s.threads[step.t].Testing? && s.threads[step.t].call.Destroy?
    then Some(s.threads[step.t].call.op)
    else None
  }

  /** The holder a step makes. */
  function GainedBy(s: State, step: Step): Option<Holder> {
    if step.Construct? then Some(OperationHolds(s.created))
    else if At(s, step.t, Testing(Reserve)) && step.Test? && !s.poll && !s.connect then Some(ThreadHolds(step.t))
    else None
  }

  /** The holder whose reservation a step ends or hands on. */
  function LostBy(s: State, step: Step): Option<Holder> {
    if step.Construct? then Some(ThreadHolds(step.t))
    else if ClosedBy(s, step).Some? then Some(OperationHolds(ClosedBy(s, step).value))
    else None
  }

  predicate At(s: State, t: nat, pc: Pc) {
    t in s.threads && s.threads[t] == pc
  }

  lemma TestThreadHolds(s: State, step: Step, s': State, t: nat)
    requires Inv(s) && Next(s, step) == Some(s') && step.Test?
    ensures Holds(s', ThreadHolds(t)) <==> Some(ThreadHolds(t)) == GainedBy(s, step) || Holds(s, ThreadHolds(t))
  {
    if t != step.t { OthersStayInTest(s, step, s', t); }
  }

  lemma ThreadHoldsAfter(s: State, step: Step, s': State, t: nat)
    requires Inv(s) && Next(s, step) == Some(s') && !Yields(step) && !Opens(step)
    ensures var h := ThreadHolds(t);
            Holds(s', h) <==> Some(h) == GainedBy(s, step) || (Holds(s, h) && Some(h) != LostBy(s, step))
  {
    if step.Test? { TestThreadHolds(s, step, s', t); } else { OthersStay(s, step, s'); }
  }

  lemma TestOperationHolds(s: State, step: Step, s': State, op: nat)
    requires Inv(s) && Next(s, step) == Some(s') && step.Test?
    ensures Holds(s', OperationHolds(op)) <==> Holds(s, OperationHolds(op)) && Some(op) != ClosedBy(s, step)
  {
  }

  lemma OperationHoldsAfter(s: State, step: Step, s': State, op: nat)
    requires Inv(s) && Next(s, step) == Some(s') && !Yields(step) && !Opens(step)
    ensures var h := OperationHolds(op);
            Holds(s', h) <==> Some(h) == GainedBy(s, step) || (Holds(s, h) && Some(h) != LostBy(s, step))
  {
    if step.Test? { TestOperationHolds(s, step, s', op); } else { assert s.created !in s.ops; }
  }

  /** Who holds the reservation after a step: finishing or destroying an operation ends no other's reservation. */
  lemma HoldersAfter(s: State, step: Step, s': State, h: Holder)
    requires Inv(s) && Next(s, step) == Some(s')
    ensures Holds(s', h) <==> Some(h) == GainedBy(s, step) || (Holds(s, h) && Some(h) != LostBy(s, step))
  {
    if Yields(step) || Opens(step) {
      StepWithin(s, step, s');
    } else {
      match h
      case ThreadHolds(t) => ThreadHoldsAfter(s, step, s', t);
      case OperationHolds(op) => OperationHoldsAfter(s, step, s', op);
    }
  }

  lemma AllHoldersAfter(s: State, step: Step, s': State)
    requires Inv(s) && Next(s, step) == Some(s')
    ensures forall h :: Holds(s', h) <==> Some(h) == GainedBy(s, step) || (Holds(s, h) && Some(h) != LostBy(s, step))
  {
    forall h
      ensures Holds(s', h) <==> Some(h) == GainedBy(s, step) || (Holds(s, h) && Some(h) != LostBy(s, step))
    {
      HoldersAfter(s, step, s', h);
    }
  }

  lemma TestChangesPoll(s: State, step: Step, s': State)
    requires Inv(s) && Next(s, step) == Some(s') && step.Test?
    ensures GainedBy(s, step).Some? ==> s'.poll && !s.poll
    ensures GainedBy(s, step).None? && s'.poll ==> s.poll
    ensures ClosedBy(s, step).None? && s.poll ==> s'.poll
    ensures ClosedBy(s, step).Some? ==>
      s'.poll == (s.poll && !Holds(s, OperationHolds(ClosedBy(s, step).value)))
  {
  }

  /** The reservation changes only with its holder. */
  lemma PollChanges(s: State, step: Step, s': State)
    requires Inv(s) && Next(s, step) == Some(s') && !Yields(step) && !Opens(step)
    ensures GainedBy(s, step).Some? ==> s'.poll
    ensures step.Construct? ==> Holds(s, ThreadHolds(step.t))
    ensures GainedBy(s, step).Some? && !step.Construct? ==> !s.poll
    ensures GainedBy(s, step).None? && s'.poll ==> s.poll
    ensures GainedBy(s, step).None? && s.poll && !s'.poll ==>
      ClosedBy(s, step).Some? && Holds(s, OperationHolds(ClosedBy(s, step).value))
    ensures GainedBy(s, step).None? && s'.poll && LostBy(s, step).Some? ==> !Holds(s, LostBy(s, step).value)
  {
    assert step.Construct? ==> Holds(s, ThreadHolds(step.t));
    if step.Test? { TestChangesPoll(s, step, s'); }
  }

  lemma PollKept(s: State, step: Step, s': State)
    requires Inv(s) && Next(s, step) == Some(s') && !Yields(step) && !Opens(step)
    ensures PollInv(s')
  {
    AllHoldersAfter(s, step, s');
    PollChanges(s, step, s');
    assert forall h :: Holds(s, h) ==> s.poll;
    if GainedBy(s, step).Some? {
      assert Holds(s', GainedBy(s, step).value);
    } else if s'.poll {
      var h :| Holds(s, h);
      assert Holds(s', h);
    }
  }

  lemma ConnectKept(s: State, step: Step, s': State)
    requires Inv(s) && Next(s, step) == Some(s') && !Yields(step) && !Opens(step)
    ensures ConnectInv(s')
  {
    OthersStay(s, step, s');
    assert forall t :: t != step.t ==> (Flagged(s', t) <==> Flagged(s, t));
    FlagKept(s, step, s');
    forall t | t in s'.threads && s'.threads[t].Connecting? && s'.threads[t].flag
      ensures !s'.poll
    {
      assert Flagged(s', t) && (t != step.t ==> Flagged(s, t));
    }
    if s'.connect {
      if s.connect {
        var t :| Flagged(s, t);
        assert Flagged(s', t);
      } else {
        assert Flagged(s', step.t);
      }
    }
  }

  lemma TestFlagsPoll(s: State, step: Step, s': State)
    requires Next(s, step) == Some(s') && step.Test?
    ensures s'.poll && !s.poll ==> !s.connect
    ensures step.t in s'.threads && s'.threads[step.t].Connecting? ==> !s'.threads[step.t].flag
  {
  }

  lemma TestFlags(s: State, step: Step, s': State)
    requires Next(s, step) == Some(s') && step.Test?
    ensures !Flagged(s, step.t) && s'.connect == (s.connect || Flagged(s', step.t))
    ensures s.connect ==> !Flagged(s', step.t)
  {
  }

  /** What a step does to sshConnect()'s flag and the reservation it excludes. */
  lemma FlagKept(s: State, step: Step, s': State)
    requires Inv(s) && Next(s, step) == Some(s') && !Yields(step) && !Opens(step)
    ensures s'.connect == s.connect || Flagged(s, step.t) || Flagged(s', step.t)
    ensures s'.connect <==> Flagged(s', step.t) || (s.connect && !Flagged(s, step.t))
    ensures s.connect && !Flagged(s, step.t) ==> !Flagged(s', step.t)
    ensures s'.poll && !s.poll ==> !s.connect
    ensures Flagged(s', step.t) && s'.threads[step.t].Connecting? ==> !s'.poll
  {
    assert Flagged(s, step.t) ==> s.connect;
    if step.Test? {
      TestFlags(s, step, s');
      TestFlagsPoll(s, step, s');
    } else if step.Leave? && Flagged(s, step.t) { 
      assert !s'.connect && !Flagged(s', step.t);
    }
  }

  lemma InvKept(s: State, step: Step, s': State)
    requires Inv(s) && Next(s, step) == Some(s')
    ensures Inv(s')
  {
    if Yields(step) || Opens(step) {
      StepWithin(s, step, s');
      WithinKept(s, s', step.t);
      return;
    }
    LockKept(s, step, s');
    OpsKept(s, step, s');
    PollKept(s, step, s');
    ConnectKept(s, step, s');
  }

  // ---- the sessions --------------------------------------------------------------------------------------------

  /** Where the threads of a client can be. */
  predicate Belongs(client: Client, pc: Pc) {
    match pc
    case Waiting(call) => Has(client, call)
    case Testing(call) => Has(client, call)
    case FlagSet => client.SshClient?
    case Refused => client.SshClient?
    case Connecting(flag, mine, free) => flag == client.SshClient? && (free ==> mine.Some?)
    case _ => client.SftpClient?
  }

  /** The session of a connect with its flag set is the client's. */
  predicate ConnectInPlace(s: State, pc: Pc) {
    pc.Connecting? && pc.flag && pc.mine.Some? ==> s.session == pc.mine
  }

  /** Sessions are numbered, so that one that is lost does not come back. */
  predicate Numbered(s: State) {
    s.session.Some? ==> s.session.value < s.sessions
  }

  ghost predicate ClientInv(s: State) {
    && (s.client.SshClient? ==> s.ops == map[]) && Numbered(s)
    && forall t | t in s.threads :: Belongs(s.client, s.threads[t]) && ConnectInPlace(s, s.threads[t])
  }

  lemma AllOthersStay(s: State, step: Step, s': State)
    requires LockInv(s) && Next(s, step) == Some(s')
    ensures forall u | u != step.t ::
      (u in s'.threads <==> u in s.threads) && (u in s.threads ==> s'.threads[u] == s.threads[u])
  {
    if Yields(step) || Opens(step) { StepWithin(s, step, s'); } else { OthersStay(s, step, s'); }
  }

  lemma AnswerBelongs(s: State, call: Call)
    requires (call.Drive? ==> call.op in s.ops) && (call.Destroy? ==> call.op in s.ops) && Has(s.client, call)
    ensures var (s', pc) := Answer(s, call);
            pc.Some? ==> Belongs(s.client, pc.value) && ConnectInPlace(s', pc.value)
  {
  }

  lemma TestBelongs(s: State, step: Step, s': State)
    requires ClientInv(s) && Next(s, step) == Some(s') && step.Test? && step.t in s'.threads
    ensures Belongs(s.client, s'.threads[step.t]) && ConnectInPlace(s', s'.threads[step.t])
  {
    assert Belongs(s.client, s.threads[step.t]);
    AnswerBelongs(s, s.threads[step.t].call);
  }

  lemma ClientStays(s: State, step: Step, s': State)
    requires Next(s, step) == Some(s')
    ensures s'.client == s.client
  {
  }

  lemma StaysNumbered(s: State, step: Step, s': State)
    requires Numbered(s) && Next(s, step) == Some(s')
    ensures Numbered(s')
  {
    SessionsGrow(s, step, s');
    if step.Test? { TestFindsNoSession(s, step, s'); } else { OtherEndsSession(s, step, s'); }
  }

  lemma NoOperations(s: State, step: Step, s': State)
    requires ClientInv(s) && Next(s, step) == Some(s') && s.client.SshClient?
    ensures s'.ops == map[]
  {
    if step.t in s.threads { assert Belongs(s.client, s.threads[step.t]); }
  }

  lemma StepBelongs(s: State, step: Step, s': State)
    requires ClientInv(s) && Next(s, step) == Some(s')
    ensures step.t in s'.threads ==> Belongs(s.client, s'.threads[step.t]) && ConnectInPlace(s', s'.threads[step.t])
  {
    if step.t in s.threads {
      assert Belongs(s.client, s.threads[step.t]) && ConnectInPlace(s, s.threads[step.t]);
      if step.Test? && step.t in s'.threads { TestBelongs(s, step, s'); }
    }
  }

  /** Nobody but the connect itself changes the session while its flag is set. */
  lemma SessionOfConnect(s: State, step: Step, s': State)
    requires Inv(s) && ClientInv(s) && Next(s, step) == Some(s') && s.client.SshClient?
    ensures s'.session == s.session || !s.connect || Flagged(s, step.t)
  {
    if step.t in s.threads { assert Belongs(s.client, s.threads[step.t]); }
  }

  lemma ClientKept(s: State, step: Step, s': State)
    requires Inv(s) && ClientInv(s) && Next(s, step) == Some(s')
    ensures ClientInv(s')
  {
    AllOthersStay(s, step, s');
    ClientStays(s, step, s');
    StaysNumbered(s, step, s');
    if s.client.SshClient? { NoOperations(s, step, s'); }
    StepBelongs(s, step, s');
    forall t | t in s'.threads && t != step.t
      ensures Belongs(s'.client, s'.threads[t]) && ConnectInPlace(s', s'.threads[t])
    {
      assert Belongs(s.client, s.threads[t]) && ConnectInPlace(s, s.threads[t]);
      if Flagged(s, t) {
        assert s.client.SshClient?;
        assert Flagged(s, step.t) ==> t == step.t;
        SessionOfConnect(s, step, s');
      }
    }
  }

  // ---- runs ----------------------------------------------------------------------------------------------------

  /** The state after the steps; None if one of them is not possible. */
  function Run(s: State, steps: seq<Step>): Option<State>
    decreases |steps|
  {
    if steps == [] then Some(s)
    else
      var next := Next(s, steps[0]);
      if next.None? then None else Run(next.value, steps[1..])
  }

  lemma {:induction false} RunKeepsInv(s: State, steps: seq<Step>)
    requires Inv(s) && ClientInv(s) && Run(s, steps).Some?
    ensures Inv(Run(s, steps).value) && ClientInv(Run(s, steps).value)
    decreases |steps|
  {
    if steps != [] {
      var s' := Next(s, steps[0]).value;
      InvKept(s, steps[0], s');
      ClientKept(s, steps[0], s');
      RunKeepsInv(s', steps[1..]);
    }
  }

  ghost predicate Reachable(s: State) {
    exists client, steps :: Run(Start(client), steps) == Some(s)
  }

  /** In every reachable state poll_op_in_progress is set exactly when there is a holder, there is at most one, and the
      two flags are never both set while the lock is free; a connect beside a reservation is one without a flag.
   */
  lemma FlagsAgree(s: State)
    requires Reachable(s)
    ensures s.poll <==> exists h :: Holds(s, h)
    ensures forall a, b | Holds(s, a) && Holds(s, b) :: a == b
    ensures s.lock.None? ==> !(s.connect && s.poll)
    ensures s.poll ==> forall t | t in s.threads && s.threads[t].Connecting? :: !s.threads[t].flag
    ensures Inv(s) && ClientInv(s)
  {
    var client, steps :| Run(Start(client), steps) == Some(s);
    assert Inv(Start(client));
    RunKeepsInv(Start(client), steps);
    if s.lock.None? && s.connect {
      var t :| Flagged(s, t);
      assert !HasLock(s.threads[t]);
    }
  }

  lemma TestLetsNothing(s: State, step: Step, s': State)
    requires Next(s, step) == Some(s') && s.poll && step.Test?
    ensures s'.grants == s.grants && s'.connects == s.connects && s'.disconnects == s.disconnects
  {
  }

  /** While the reservation is taken nothing is let through. */
  lemma LetThrough(s: State, step: Step, s': State)
    requires Inv(s) && Next(s, step) == Some(s') && s.poll
    ensures s'.grants == s.grants && s'.connects == s.connects && s'.disconnects == s.disconnects
  {
    if Yields(step) || Opens(step) { StepWithin(s, step, s'); }
    if step.Test? { TestLetsNothing(s, step, s'); }
  }

  /** While there is a holder no other reservation, no connect and no disconnect is let through, whoever asks, and the
      holder stays unless the step hands its reservation to the new operation or closes exactly its operation.
   */
  lemma HolderIsAlone(s: State, h: Holder, step: Step, s': State)
    requires Reachable(s) && Holds(s, h) && Next(s, step) == Some(s')
    ensures s'.grants == s.grants && s'.connects == s.connects && s'.disconnects == s.disconnects
    ensures Holds(s', h) || (step.Construct? && Holds(s', OperationHolds(s.created)))
            || (ClosedBy(s, step).Some? && h == OperationHolds(ClosedBy(s, step).value))
  {
    FlagsAgree(s);
    LetThrough(s, step, s');
    HoldersAfter(s, step, s', h);
  }

  lemma ConnectLetsNothing(s: State, step: Step, s': State)
    requires Inv(s) && ClientInv(s) && Next(s, step) == Some(s') && s.client.SshClient?
    requires s.connect && !Flagged(s, step.t)
    ensures s'.grants == s.grants && s'.connects == s.connects && s'.disconnects == s.disconnects
  {
    if step.t in s.threads { assert Belongs(s.client, s.threads[step.t]); }
    if Yields(step) || Opens(step) { StepWithin(s, step, s'); }
  }

  /** While a connect has its flag set, nobody but itself changes or ends the client's session: it finds its session
      whenever it takes the lock back.
   */
  lemma ConnectKeepsSession(s: State, t: nat, mine: nat, free: bool)
    requires Reachable(s) && At(s, t, Connecting(true, Some(mine), free))
    ensures s.session == Some(mine) && !s.poll
    ensures forall step, s' :: Next(s, step) == Some(s') && step.t != t ==>
      s'.session == s.session && s'.grants == s.grants && s'.connects == s.connects && s'.disconnects == s.disconnects
  {
    FlagsAgree(s);
    assert Belongs(s.client, s.threads[t]) && Flagged(s, t);
    forall step, s' | Next(s, step) == Some(s') && step.t != t
      ensures s'.session == s.session && s'.grants == s.grants && s'.connects == s.connects
      ensures s'.disconnects == s.disconnects
    {
      SessionOfConnect(s, step, s');
      ConnectLetsNothing(s, step, s');
    }
  }

  // ---- the session of a poll operation -------------------------------------------------------------------------

  /** A thread that may change or end the session although the reservation is not its own. */
  predicate Intrudes(s: State, t: nat) {
    t in s.threads
    && match s.threads[t]
       case Connecting(flag, _, _) => !flag
       case Operating(_, _) => true
       case Driving(op, _) => op !in s.ops || !s.ops[op].reserved
       case _ => false
  }

  predicate OperationInPlace(s: State, op: nat) {
    op in s.ops && s.ops[op].reserved && s.ops[op].mine.Some? ==> s.session == s.ops[op].mine
  }

  /** The operation is being destroyed before it had a session. */
  ghost predicate Doomed(s: State, op: nat) {
    && Holds(s, OperationHolds(op)) && s.ops[op].mine.None?
    && exists t :: t in s.threads && CallOf(s.threads[t]) == Some(Destroy(op))
  }

  ghost predicate Ending(s: State) {
    exists op :: Doomed(s, op)
  }

  ghost predicate SessionInv(s: State) {
    && (s.poll && !Ending(s) ==> forall t :: !Intrudes(s, t))
    && forall op :: OperationInPlace(s, op)
  }

  /** The calls after which an operation can lose its session: a reservation that is let through while a thread that was
      let in before it is still in its call, and an SFTP method on a session that is up while the client is reserved,
      unless its operation is being destroyed and never had a session.
   */
  ghost predicate Risky(s: State, step: Step) {
    && step.Test?
    && if At(s, step.t, Testing(Reserve)) then !s.poll && !s.connect && exists t :: Intrudes(s, t)
       else At(s, step.t, Testing(Operate)) && s.poll && s.sftp && s.session.Some? && !Ending(s)
  }

  /** None of the steps is risky. */
  ghost predicate Careful(s: State, steps: seq<Step>)
    decreases |steps|
  {
    steps == []
    || (!Risky(s, steps[0]) && (Next(s, steps[0]).Some? ==> Careful(Next(s, steps[0]).value, steps[1..])))
  }

  /** While the reservation stays taken its operation keeps it. */
  lemma ReservedStays(s: State, step: Step, s': State, op: nat)
    requires Inv(s) && Next(s, step) == Some(s') && s'.poll && Holds(s, OperationHolds(op))
    ensures Holds(s', OperationHolds(op))
  {
    InvKept(s, step, s');
    var h :| Holds(s', h);
    HoldersAfter(s, step, s', h);
    HoldersAfter(s, step, s', OperationHolds(op));
    assert s.poll;
  }

  lemma OpsAfterTest(s: State, step: Step, s': State)
    requires Next(s, step) == Some(s') && step.Test?
    ensures forall op | op in s'.ops :: op in s.ops && s'.ops[op] == s.ops[op]
  {
  }

  /** Only a thread that drives the operation changes the session it works on. */
  lemma MineStays(s: State, step: Step, s': State, op: nat)
    requires Next(s, step) == Some(s') && op in s.ops && op in s'.ops && s'.ops[op].reserved
    requires Numbered(s) && forall o | o in s.ops :: o < s.created
    requires !(step.t in s.threads && s.threads[step.t].Driving? && s.threads[step.t].op == op)
    ensures s'.ops[op].mine == s.ops[op].mine
  {
    if step.Test? { OpsAfterTest(s, step, s'); } else if Ends(step) { OpsAtEnd(s, step, s', op); }
  }

  lemma DestroyerStays(s: State, step: Step, s': State, op: nat, t: nat)
    requires Inv(s) && Next(s, step) == Some(s') && t in s.threads && CallOf(s.threads[t]) == Some(Destroy(op))
    requires op in s'.ops
    ensures t in s'.threads && CallOf(s'.threads[t]) == Some(Destroy(op))
  {
    AllOthersStay(s, step, s');
    assert CallInv(s, t);
    if step.Test? && step.t == t { TestKeepsOps(s, step, s'); }
  }

  /** An operation that is being destroyed stays the only holder until it is gone. */
  lemma EndingStays(s: State, step: Step, s': State)
    requires Inv(s) && ClientInv(s) && Next(s, step) == Some(s') && Ending(s) && s'.poll
    ensures Ending(s')
  {
    var op :| Doomed(s, op);
    var t :| t in s.threads && CallOf(s.threads[t]) == Some(Destroy(op));
    ReservedStays(s, step, s', op);
    DestroyerStays(s, step, s', op, t);
    assert CallInv(s, t);
    MineStays(s, step, s', op);
    assert Doomed(s', op);
  }

  /** A thread with a call that was let in before, or with the call that is let in now. */
  lemma StepperIntrudes(s: State, step: Step, s': State)
    requires Inv(s) && ClientInv(s) && Next(s, step) == Some(s') && !Risky(s, step)
    requires s.poll && !Ending(s) && !Intrudes(s, step.t) && s'.poll && step.t in s'.threads
    ensures s'.threads[step.t].Driving? || !Intrudes(s', step.t)
    ensures s'.threads[step.t].Driving? ==> Holds(s, OperationHolds(s'.threads[step.t].op))
  {
    if step.t in s.threads { assert Belongs(s.client, s.threads[step.t]); }
  }

  lemma NoIntruder(s: State, step: Step, s': State, t: nat)
    requires Inv(s) && ClientInv(s) && SessionInv(s) && Next(s, step) == Some(s') && !Risky(s, step)
    requires s'.poll && !Ending(s')
    ensures !Intrudes(s', t)
  {
    AllOthersStay(s, step, s');
    if s.poll {
      if Ending(s) { EndingStays(s, step, s'); }
      assert !Intrudes(s, t) && !Intrudes(s, step.t);
      if t == step.t && t in s'.threads { StepperIntrudes(s, step, s'); }
      if t in s'.threads && s'.threads[t].Driving? { ReservedStays(s, step, s', s'.threads[t].op); }
    } else {
      ReservedNow(s, step, s');
      assert !Intrudes(s, t);
    }
  }

  lemma AnswerReserves(s: State, call: Call)
    requires (call.Drive? ==> call.op in s.ops) && (call.Destroy? ==> call.op in s.ops) && !s.poll
    ensures var (s', pc) := Answer(s, call);
            s'.poll ==> call == Reserve && !s.connect && pc == Some(Reserved) && s'.ops == s.ops
  {
  }

  /** Only the first step of startPollGetFile() takes the reservation. */
  lemma ReservedNow(s: State, step: Step, s': State)
    requires Inv(s) && Next(s, step) == Some(s') && !s.poll && s'.poll
    ensures step.Test? && At(s, step.t, Testing(Reserve)) && !s.connect && s'.ops == s.ops && At(s', step.t, Reserved)
  {
    if step.Test? { AnswerReserves(s, s.threads[step.t].call); }
  }

  /** Without an intruder only an operation with the reservation changes the session. */
  lemma SessionOfOperation(s: State, step: Step, s': State)
    requires Inv(s) && ClientInv(s) && Next(s, step) == Some(s') && s.poll && s.client.SftpClient?
    requires !Intrudes(s, step.t)
    ensures s'.session == s.session || (step.t in s.threads && s.threads[step.t].Driving?)
  {
    if step.t in s.threads { assert Belongs(s.client, s.threads[step.t]); }
  }

  lemma MineAfter(s: State, step: Step, s': State, op: nat)
    requires Inv(s) && Next(s, step) == Some(s') && op in s.ops && op in s'.ops && s'.ops[op].reserved
    requires step.t in s.threads && s.threads[step.t].Driving? && s.threads[step.t].op == op
    ensures s'.ops[op].mine == s'.session || (s'.ops[op].mine == s.ops[op].mine && s'.session == s.session)
  {
  }

  lemma OperationKept(s: State, step: Step, s': State, op: nat)
    requires Inv(s) && ClientInv(s) && SessionInv(s) && Next(s, step) == Some(s') && Holds(s', OperationHolds(op))
    ensures OperationInPlace(s', op)
  {
    HoldersAfter(s, step, s', OperationHolds(op));
    if Holds(s, OperationHolds(op)) {
      assert s.poll && OperationInPlace(s, op);
      if step.t in s.threads && s.threads[step.t].Driving? && s.threads[step.t].op == op {
        MineAfter(s, step, s', op);
      } else {
        MineStays(s, step, s', op);
        if s.ops[op].mine.Some? { OthersKeepSession(s, step, s', op); }
      }
    }
  }

  /** Nobody but its own operation touches a session that is in place. */
  lemma OthersKeepSession(s: State, step: Step, s': State, op: nat)
    requires Inv(s) && ClientInv(s) && SessionInv(s) && Next(s, step) == Some(s')
    requires Holds(s, OperationHolds(op)) && s.ops[op].mine.Some?
    requires !(step.t in s.threads && s.threads[step.t].Driving? && s.threads[step.t].op == op)
    ensures s'.session == s.session
  {
    assert s.poll;
    assert forall o :: Holds(s, OperationHolds(o)) ==> OperationHolds(o) == OperationHolds(op);
    assert !Ending(s);
    assert !Intrudes(s, step.t);
    SessionOfOperation(s, step, s');
    if step.t in s.threads && s.threads[step.t].Driving? {
      assert Holds(s, OperationHolds(s.threads[step.t].op));
    }
  }

  lemma SessionKept(s: State, step: Step, s': State)
    requires Inv(s) && ClientInv(s) && SessionInv(s) && Next(s, step) == Some(s') && !Risky(s, step)
    ensures SessionInv(s')
  {
    if s'.poll && !Ending(s') {
      forall t
        ensures !Intrudes(s', t)
      {
        NoIntruder(s, step, s', t);
      }
    }
    forall op | Holds(s', OperationHolds(op))
      ensures OperationInPlace(s', op)
    {
      OperationKept(s, step, s', op);
    }
  }

  lemma {:induction false} CarefulRun(s: State, steps: seq<Step>)
    requires Inv(s) && ClientInv(s) && SessionInv(s) && Careful(s, steps) && Run(s, steps).Some?
    ensures SessionInv(Run(s, steps).value)
    decreases |steps|
  {
    if steps != [] {
      var s' := Next(s, steps[0]).value;
      SessionKept(s, steps[0], s');
      InvKept(s, steps[0], s');
      ClientKept(s, steps[0], s');
      CarefulRun(s', steps[1..]);
    }
  }

  /** What can be reached by steps none of which is risky. */
  ghost predicate CanReach(s: State, s': State) {
    exists more :: Run(s, more) == Some(s') && Careful(s, more)
  }

  /** Whatever else is done with care, every operation finds its session. */
  ghost predicate Safe(s: State) {
    forall s', op :: CanReach(s, s') ==> OperationInPlace(s', op)
  }

  /** In a run without a risky call every operation finds its session whenever it goes on, however many threads connect,
      disconnect, reserve and use the client.
   */
  lemma OperationKeepsSession(client: Client, steps: seq<Step>, op: nat)
    requires Run(Start(client), steps).Some? && Careful(Start(client), steps)
    ensures OperationInPlace(Run(Start(client), steps).value, op)
  {
    CarefulRun(Start(client), steps);
  }

  // ---- every risky call can lose a session ---------------------------------------------------------------------

  lemma {:induction false} RunAppend(s: State, steps: seq<Step>, step: Step)
    requires Run(s, steps).Some?
    ensures Run(s, steps + [step]) == Next(Run(s, steps).value, step)
    decreases |steps|
  {
    if steps == [] {
      assert [step][1..] == [];
    } else {
      assert (steps + [step])[1..] == steps[1..] + [step];
      RunAppend(Next(s, steps[0]).value, steps[1..], step);
    }
  }

  lemma {:induction false} CarefulAppend(s: State, steps: seq<Step>, step: Step)
    requires Careful(s, steps) && Run(s, steps).Some? && !Risky(Run(s, steps).value, step)
    ensures Careful(s, steps + [step])
    decreases |steps|
  {
    if steps == [] {
      assert [step][1..] == [];
    } else {
      assert (steps + [step])[1..] == steps[1..] + [step];
      CarefulAppend(Next(s, steps[0]).value, steps[1..], step);
    }
  }

  /** One more careful step; the invariants stay. */
  lemma On(from: State, s: State, step: Step) returns (s': State)
    requires CanReach(from, s) && Inv(s) && ClientInv(s) && Next(s, step).Some? && !Risky(s, step)
    ensures CanReach(from, s') && Inv(s') && ClientInv(s') && Next(s, step) == Some(s')
  {
    var more :| Run(from, more) == Some(s) && Careful(from, more);
    RunAppend(from, more, step);
    CarefulAppend(from, more, step);
    s' := Next(s, step).value;
    InvKept(s, step, s');
    ClientKept(s, step, s');
    assert Run(from, more + [step]) == Some(s') && Careful(from, more + [step]);
  }

  /** There is always a thread that is in no call. */
  lemma Unstarted(threads: set<nat>) returns (t: nat)
    ensures forall u | u in threads :: u < t
    decreases |threads|
  {
    t := 0;
    if threads != {} {
      var u :| u in threads;
      t := Unstarted(threads - {u});
      if t <= u { t := u + 1; }
      assert threads == threads - {u} + {u};
    }
  }

  /** A thread that has not begun asks to drive an operation that is not being destroyed. */
  lemma Begun(from: State, s: State, op: nat, v: nat) returns (s': State)
    requires CanReach(from, s) && Inv(s) && ClientInv(s) && op in s.ops && v !in s.threads
    requires forall t | t in s.threads :: CallOf(s.threads[t]) != Some(Destroy(op))
    ensures CanReach(from, s') && Inv(s') && ClientInv(s')
    ensures s' == s.(threads := s.threads[v := Waiting(Drive(op))])
  {
    assert s.client.SftpClient?;
    s' := On(from, s, Begin(v, Drive(op)));
  }

  lemma Acquired(from: State, s: State, op: nat, v: nat) returns (s': State)
    requires CanReach(from, s) && Inv(s) && ClientInv(s) && s.lock.None? && At(s, v, Waiting(Drive(op)))
    ensures CanReach(from, s') && Inv(s') && ClientInv(s')
    ensures s' == s.(lock := Some(v), threads := s.threads[v := Testing(Drive(op))])
  {
    s' := On(from, s, Acquire(v));
  }

  lemma LetDrive(from: State, s: State, op: nat, v: nat) returns (s': State)
    requires CanReach(from, s) && Inv(s) && ClientInv(s) && s.lock == Some(v) && At(s, v, Testing(Drive(op)))
    requires Holds(s, OperationHolds(op))
    ensures CanReach(from, s') && Inv(s') && ClientInv(s')
    ensures s' == s.(threads := s.threads[v := Driving(op, false)])
  {
    s' := On(from, s, Test(v));
  }

  lemma Driven(from: State, s: State, op: nat, v: nat) returns (s': State)
    requires CanReach(from, s) && Inv(s) && ClientInv(s) && s.lock.None? && Holds(s, OperationHolds(op))
    requires v !in s.threads && forall t | t in s.threads :: CallOf(s.threads[t]) != Some(Destroy(op))
    ensures CanReach(from, s') && Inv(s') && ClientInv(s')
    ensures s' == s.(lock := Some(v), threads := s.threads[v := Driving(op, false)])
  {
    var begun := Begun(from, s, op, v);
    var acquired := Acquired(from, begun, op, v);
    s' := LetDrive(from, acquired, op, v);
    assert s'.threads == s.threads[v := Driving(op, false)];
  }

  /** The operation makes a session of its own and returns to its caller. */
  lemma Established(from: State, s: State, op: nat, v: nat) returns (s': State)
    requires CanReach(from, s) && Inv(s) && ClientInv(s) && s.lock == Some(v) && At(s, v, Driving(op, false))
    requires Holds(s, OperationHolds(op))
    ensures CanReach(from, s') && Inv(s') && ClientInv(s') && s'.lock.None? && s'.threads == s.threads - {v}
    ensures s'.ops == s.ops[op := s.ops[op].(mine := Some(s.sessions))]
  {
    s' := On(from, s, OpenSession(v));
    assert s'.threads == s.threads;
    s' := On(from, s', Leave(v));
  }

  /** A call in its window, which has a session and is not the operation's. */
  predicate Waits(s: State, u: nat, op: nat) {
    u in s.threads && Intrudes(s, u) && WithFree(s.threads[u], false).Some?
    && (s.threads[u].Driving? ==> s.threads[u].op != op && s.threads[u].op in s.ops)
  }

  lemma TakenBack(from: State, s: State, op: nat, u: nat) returns (s': State)
    requires CanReach(from, s) && Inv(s) && ClientInv(s) && s.lock.None? && Waits(s, u, op)
    ensures CanReach(from, s') && Inv(s') && ClientInv(s') && s'.ops == s.ops && s'.session == s.session
    ensures At(s', u, WithFree(s.threads[u], false).value)
  {
    s' := On(from, s, TakeLockBack(u));
  }

  /** A call with the lock disconnects. */
  lemma Disconnects(from: State, s: State, op: nat, u: nat) returns (s': State)
    requires CanReach(from, s) && Inv(s) && ClientInv(s) && u in s.threads
    requires match s.threads[u]
             case Connecting(flag, _, free) => !flag && !free
             case Operating(_, free) => !free
             case Driving(o, free) => !free && o != op && o in s.ops
             case _ => false
    requires Holds(s, OperationHolds(op)) && s.ops[op].mine.Some?
    ensures CanReach(from, s') && !OperationInPlace(s', op)
  {
    s' := On(from, s, Drop(u));
  }

  /** It takes the lock back and disconnects. */
  lemma Dropped(from: State, s: State, op: nat, u: nat) returns (s': State)
    requires CanReach(from, s) && Inv(s) && ClientInv(s) && s.lock.None? && Waits(s, u, op)
    requires Holds(s, OperationHolds(op)) && s.ops[op].mine.Some?
    ensures CanReach(from, s') && !OperationInPlace(s', op)
  {
    var back := TakenBack(from, s, op, u);
    s' := Disconnects(from, back, op, u);
  }

  /** So the operation loses the session it makes to a call that waits to go on. */
  lemma Loses(from: State, s: State, op: nat, u: nat)
    requires CanReach(from, s) && Inv(s) && ClientInv(s) && s.lock.None? && Waits(s, u, op)
    requires Holds(s, OperationHolds(op))
    requires forall t | t in s.threads :: CallOf(s.threads[t]) != Some(Destroy(op))
    ensures !Safe(from)
  {
    var v := Unstarted(s.threads.Keys);
    var driven := Driven(from, s, op, v);
    var established := Established(from, driven, op, v);
    assert established.threads == s.threads;
    var dropped := Dropped(from, established, op, u);
  }

  /** A thread with the reservation hands it to the operation it creates. */
  lemma HandedOn(from: State, s: State, t: nat) returns (s': State)
    requires CanReach(from, s) && Inv(s) && ClientInv(s) && At(s, t, Reserved)
    ensures CanReach(from, s') && Inv(s') && ClientInv(s') && Holds(s', OperationHolds(s.created))
    ensures s'.lock == s.lock && s'.threads == s.threads - {t} && s.created !in s.ops
    ensures s'.ops == s.ops[s.created := Operation(true, false, None)]
    ensures forall u | u in s'.threads :: CallOf(s'.threads[u]) != Some(Destroy(s.created))
  {
    assert forall u | u in s.threads :: CallInv(s, u);
    s' := On(from, s, Construct(t));
  }

  lemma Stays(s: State)
    ensures CanReach(s, s)
  {
    assert Run(s, []) == Some(s) && Careful(s, []);
  }

  lemma StepKeeps(s: State, step: Step, s': State)
    requires Inv(s) && ClientInv(s) && Next(s, step) == Some(s')
    ensures Inv(s') && ClientInv(s')
  {
    InvKept(s, step, s');
    ClientKept(s, step, s');
  }

  lemma ReserveLetThrough(s: State, step: Step, s': State)
    requires LockInv(s) && Next(s, step) == Some(s') && step.Test? && At(s, step.t, Testing(Reserve))
    requires !s.poll && !s.connect
    ensures s'.lock.None? && s'.ops == s.ops && s'.created == s.created && s'.threads == s.threads[step.t := Reserved]
  {
  }

  lemma OperateLetThrough(s: State, step: Step, s': State)
    requires LockInv(s) && Next(s, step) == Some(s') && step.Test? && At(s, step.t, Testing(Operate))
    requires s.sftp && s.session.Some?
    ensures s' == s.(threads := s.threads[step.t := Operating(s.session.value, false)])
    ensures forall op :: Doomed(s', op) ==> Doomed(s, op)
  {
    forall op | Doomed(s', op) ensures Doomed(s, op) {
      var t :| t in s'.threads && CallOf(s'.threads[t]) == Some(Destroy(op));
      assert t in s.threads && CallOf(s.threads[t]) == Some(Destroy(op));
      assert Holds(s, OperationHolds(op));
    }
  }

  /** A reservation that is let through while a call waits to go on. */
  lemma ReserveLoses(s: State, s': State, t: nat, u: nat)
    requires Inv(s) && ClientInv(s) && Inv(s') && ClientInv(s') && At(s, t, Testing(Reserve)) && Intrudes(s, u)
    requires s'.lock.None? && s'.ops == s.ops && s'.created == s.created && s'.threads == s.threads[t := Reserved]
    ensures !Safe(s')
  {
    assert Belongs(s.client, s.threads[u]) && CallInv(s, u);
    assert HasLock(s.threads[t]) && !HasLock(s.threads[u]);
    Stays(s');
    var handed := HandedOn(s', s', t);
    Loses(s', handed, s.created, u);
  }

  /** An SFTP method that is let through while the operation has a session. */
  lemma OperateEnds(s: State, t: nat, id: nat, op: nat)
    requires Inv(s) && ClientInv(s) && At(s, t, Operating(id, false))
    requires Holds(s, OperationHolds(op)) && s.ops[op].mine.Some?
    ensures !Safe(s)
  {
    Stays(s);
    var dropped := Disconnects(s, s, op, t);
    assert !OperationInPlace(dropped, op);
  }

  /** An SFTP method that is let through and gives the lock up. */
  lemma OperateYields(s: State, t: nat, id: nat) returns (yielded: State)
    requires Inv(s) && ClientInv(s) && At(s, t, Operating(id, false))
    ensures CanReach(s, yielded) && Inv(yielded) && ClientInv(yielded)
    ensures yielded == s.(lock := None, threads := s.threads[t := Operating(id, true)])
  {
    Stays(s);
    yielded := On(s, s, GiveUpLock(t));
  }

  /** An SFTP method that is let through before the operation has one. */
  lemma OperateLoses(s: State, t: nat, id: nat, h: Holder)
    requires Inv(s) && ClientInv(s) && At(s, t, Operating(id, false))
    requires Holds(s, h) && (h.OperationHolds? ==> s.ops[h.op].mine.None? && !Doomed(s, h.op))
    ensures !Safe(s)
  {
    var yielded := OperateYields(s, t, id);
    match h
    case ThreadHolds(u) =>
      var handed := HandedOn(s, yielded, u);
      Loses(s, handed, yielded.created, t);
    case OperationHolds(op) =>
      Loses(s, yielded, op, t);
  }

  lemma RiskyLoses(s: State, step: Step, s': State)
    requires Inv(s) && ClientInv(s) && Next(s, step) == Some(s') && Risky(s, step)
    ensures !Safe(s')
  {
    StepKeeps(s, step, s');
    if At(s, step.t, Testing(Reserve)) {
      var u :| Intrudes(s, u);
      ReserveLetThrough(s, step, s');
      ReserveLoses(s, s', step.t, u);
    } else {
      var h :| Holds(s, h);
      OperateLetThrough(s, step, s');
      assert Holds(s', h);
      if h.OperationHolds? && s.ops[h.op].mine.Some? {
        OperateEnds(s', step.t, s.session.value, h.op);
      } else {
        OperateLoses(s', step.t, s.session.value, h);
      }
    }
  }

  /** A call is risky exactly if an operation can lose its session after it, although nothing else that is done is. */
  lemma RiskyExactly(s: State, step: Step, s': State)
    requires Reachable(s) && SessionInv(s) && Next(s, step) == Some(s')
    ensures Risky(s, step) <==> !Safe(s')
  {
    FlagsAgree(s);
    if !Risky(s, step) {
      SessionKept(s, step, s');
      StepKeeps(s, step, s');
      InPlaceFrom(s');
    } else {
      RiskyLoses(s, step, s');
    }
  }

  lemma InPlaceFrom(s: State)
    requires Inv(s) && ClientInv(s) && SessionInv(s)
    ensures Safe(s)
  {
    forall s', op | CanReach(s, s')
      ensures OperationInPlace(s', op)
    {
      var more :| Run(s, more) == Some(s') && Careful(s, more);
      CarefulRun(s, more);
    }
  }

  ghost predicate SafeAfter(s: State, steps: seq<Step>) {
    Run(s, steps).Some? && Safe(Run(s, steps).value)
  }

  /** After each of the steps every operation is safe. */
  ghost predicate AlwaysSafe(s: State, steps: seq<Step>) {
    forall n: nat | n <= |steps| :: SafeAfter(s, steps[..n])
  }

  /** The moments of a run are its start and the moments of the run after its first step. */
  lemma AlwaysSafeSplit(s: State, steps: seq<Step>)
    requires steps != [] && Run(s, steps).Some?
    ensures AlwaysSafe(s, steps) <==> Safe(s) && AlwaysSafe(Next(s, steps[0]).value, steps[1..])
  {
    var s' := Next(s, steps[0]).value;
    assert SafeAfter(s, steps[..0]) <==> Safe(s);
    forall n: nat | n < |steps|
      ensures SafeAfter(s, steps[..n + 1]) <==> SafeAfter(s', steps[1..][..n])
    {
      assert steps[..n + 1][0] == steps[0] && steps[..n + 1][1..] == steps[1..][..n];
    }
    if AlwaysSafe(s, steps) {
      forall n: nat | n <= |steps[1..]|
        ensures SafeAfter(s', steps[1..][..n])
      {
        assert SafeAfter(s, steps[..n + 1]);
      }
    } else if Safe(s) && AlwaysSafe(s', steps[1..]) {
      forall n: nat | n <= |steps|
        ensures SafeAfter(s, steps[..n])
      {
        if n > 0 { assert SafeAfter(s', steps[1..][..n - 1]); }
      }
    }
  }

  /** A run is careful exactly if after each of its steps every operation is safe. */
  lemma {:induction false} CarefulExactly(s: State, steps: seq<Step>)
    requires Reachable(s) && SessionInv(s) && Run(s, steps).Some?
    ensures Careful(s, steps) <==> AlwaysSafe(s, steps)
    decreases |steps|
  {
    FlagsAgree(s);
    InPlaceFrom(s);
    if steps == [] {
      assert steps[..0] == steps;
    } else {
      var s' := Then(s, steps[0]);
      RiskyExactly(s, steps[0], s');
      AlwaysSafeSplit(s, steps);
      if !Risky(s, steps[0]) {
        SessionKept(s, steps[0], s');
        CarefulExactly(s', steps[1..]);
      } else {
        assert steps[1..][..0] == [];
        assert AlwaysSafe(s', steps[1..]) ==> SafeAfter(s', steps[1..][..0]);
      }
    }
  }

  // ---- when a call in its window keeps its session -------------------------------------------------------------

  /** A possible step that ends or replaces the client's session: a thread that makes a session or disconnects, a
      disconnect() that is let through, and a sftpConnect() that is let through on an SFTP session.
   */
  predicate EndsSession(s: State, step: Step) {
    || step.OpenSession? || step.Drop?
    || (step.Test? && At(s, step.t, Testing(Disconnect)) && !s.poll && !s.connect)
    || (step.Test? && At(s, step.t, Testing(SftpConnect)) && !s.poll && s.sftp)
  }

  /** None of the steps does. */
  predicate Spares(s: State, steps: seq<Step>)
    decreases |steps|
  {
    steps == []
    || (!EndsSession(s, steps[0]) && (Next(s, steps[0]).Some? ==> Spares(Next(s, steps[0]).value, steps[1..])))
  }

  lemma AnswerEndsSession(s: State, call: Call)
    requires (call.Drive? ==> call.op in s.ops) && (call.Destroy? ==> call.op in s.ops) && s.session.Some?
    ensures var ends := (call.Disconnect? && !s.poll && !s.connect) || (call.SftpConnect? && !s.poll && s.sftp);
            Answer(s, call).0.session == if ends then None else s.session
  {
  }

  lemma TestEndsSession(s: State, step: Step, s': State)
    requires Next(s, step) == Some(s') && step.Test? && s.session.Some?
    ensures s'.session == if EndsSession(s, step) then None else s.session
  {
    AnswerEndsSession(s, s.threads[step.t].call);
  }

  lemma OtherEndsSession(s: State, step: Step, s': State)
    requires Next(s, step) == Some(s') && !step.Test?
    ensures s'.session == if step.OpenSession? then Some(s.sessions) else if step.Drop? then None else s.session
  {
  }

  lemma TestFindsNoSession(s: State, step: Step, s': State)
    requires Next(s, step) == Some(s') && step.Test?
    ensures s'.session == s.session || s'.session.None?
  {
  }

  /** A session that was ended or replaced does not come back. */
  lemma {:induction false} LostForGood(s: State, steps: seq<Step>, m: nat)
    requires m < s.sessions && s.session != Some(m) && Run(s, steps).Some?
    ensures Run(s, steps).value.session != Some(m)
    decreases |steps|
  {
    if steps != [] {
      var s' := Next(s, steps[0]).value;
      if steps[0].Test? { TestFindsNoSession(s, steps[0], s'); } else { OtherEndsSession(s, steps[0], s'); }
      SessionsGrow(s, steps[0], s');
      LostForGood(s', steps[1..], m);
    }
  }

  lemma SessionsGrow(s: State, step: Step, s': State)
    requires Next(s, step) == Some(s')
    ensures s.sessions <= s'.sessions
  {
  }

  lemma {:induction false} SessionStaysIff(s: State, steps: seq<Step>, m: nat)
    requires m < s.sessions && s.session == Some(m) && Run(s, steps).Some?
    ensures Run(s, steps).value.session == Some(m) <==> Spares(s, steps)
    decreases |steps|
  {
    if steps != [] {
      var s' := Next(s, steps[0]).value;
      if steps[0].Test? { TestEndsSession(s, steps[0], s'); } else { OtherEndsSession(s, steps[0], s'); }
      SessionsGrow(s, steps[0], s');
      if EndsSession(s, steps[0]) {
        LostForGood(s', steps[1..], m);
      } else {
        SessionStaysIff(s', steps[1..], m);
      }
    }
  }

  /** The session a connect or an SFTP method works on. */
  function SessionOf(pc: Pc): Option<nat> {
    match pc
    case Connecting(_, mine, _) => mine
    case Operating(id, _) => Some(id)
    case _ => None
  }

  lemma {:induction false} IdleStays(s: State, steps: seq<Step>, t: nat)
    requires Inv(s) && ClientInv(s) && Run(s, steps).Some? && t in s.threads
    requires forall step | step in steps :: step.t != t
    ensures var s' := Run(s, steps).value; At(s', t, s.threads[t])
    decreases |steps|
  {
    if steps != [] {
      var s' := Next(s, steps[0]).value;
      assert steps[0] in steps;
      AllOthersStay(s, steps[0], s');
      InvKept(s, steps[0], s');
      ClientKept(s, steps[0], s');
      IdleStays(s', steps[1..], t);
    }
  }

  /** A connect, flagged or not, or an SFTP method that gave the lock up with its session in place: whatever the other
      threads do in its window, it finds its session again when it takes the lock back exactly if none of their steps
      ended it.
   */
  lemma CallFindsSession(s: State, t: nat, steps: seq<Step>)
    requires Reachable(s) && t in s.threads && WithFree(s.threads[t], false).Some? && !s.threads[t].Driving?
    requires s.session == SessionOf(s.threads[t]) && forall step | step in steps :: step.t != t
    requires Run(s, steps).Some? && Run(s, steps).value.lock.None?
    ensures var back := Next(Run(s, steps).value, TakeLockBack(t));
            && back.Some? && At(back.value, t, WithFree(s.threads[t], false).value)
            && (back.value.session == SessionOf(back.value.threads[t]) <==> Spares(s, steps))
  {
    FlagsAgree(s);
    IdleStays(s, steps, t);
    SessionStaysIff(s, steps, s.session.value);
  }

  // ---- calls that lose their session ---------------------------------------------------------------------------

  lemma Then(s: State, step: Step) returns (s': State)
    requires Reachable(s) && Next(s, step).Some?
    ensures Reachable(s') && Next(s, step) == Some(s')
  {
    var client, steps :| Run(Start(client), steps) == Some(s);
    RunAppend(Start(client), steps, step);
    s' := Next(s, step).value;
  }

  /** A call that has got the lock. */
  lemma Ask(s: State, t: nat, call: Call) returns (s': State)
    requires Reachable(s) && s.lock.None? && CanBegin(s, t, call)
    ensures Reachable(s') && s' == s.(lock := Some(t), threads := s.threads[t := Testing(call)])
  {
    s' := Then(s, Begin(t, call));
    s' := Then(s', Acquire(t));
    assert s'.threads == s.threads[t := Testing(call)];
  }

  /** A call that is let in. */
  lemma Enter(s: State, t: nat, call: Call) returns (s': State)
    requires Reachable(s) && s.lock.None? && CanBegin(s, t, call)
    requires (call.Drive? ==> call.op in s.ops) && (call.Destroy? ==> call.op in s.ops)
    ensures Reachable(s') && s' == Tested(s.(lock := Some(t), threads := s.threads[t := Testing(call)]), t, call)
  {
    s' := Ask(s, t, call);
    s' := Then(s', Test(t));
  }

  /** sftpConnect() with its session. */
  lemma Connected() returns (s: State)
    ensures Reachable(s) && s.threads == map[1 := Connecting(false, Some(0), false)] && s.lock == Some(1)
    ensures s.session == Some(0) && !s.connect && !s.poll && s.client.SftpClient? && s.ops == map[]
    ensures s.created == 0 && !s.sftp
  {
    assert Run(Start(SftpClient), []) == Some(Start(SftpClient));
    s := Enter(Start(SftpClient), 1, SftpConnect);
    s := Then(s, OpenSession(1));
  }

  /** sftpConnect() while it runs code of the identity provider. */
  lemma InWindow() returns (s: State)
    ensures Reachable(s) && At(s, 1, Connecting(false, Some(0), true)) && s.threads.Keys == {1}
    ensures s.lock.None? && s.session == Some(0) && !s.connect && !s.poll && s.client.SftpClient? && s.ops == map[]
    ensures s.created == 0 && !s.sftp
  {
    s := Connected();
    s := Then(s, GiveUpLock(1));
  }

  /** sftpConnect() sets no flag: disconnect() passes while it runs code of the identity provider, and it goes on
      without its session.
   */
  lemma SftpConnectLosesSession()
    ensures exists s :: Reachable(s) && At(s, 1, Connecting(false, Some(0), false)) && s.session.None?
  {
    var s := InWindow();
    s := Enter(s, 2, Disconnect);
    s := Then(s, TakeLockBack(1));
  }

  /** The client can be reserved while it connects. */
  lemma Overtaken() returns (s: State)
    ensures Reachable(s) && At(s, 1, Connecting(false, Some(0), true)) && At(s, 2, Reserved) && s.threads.Keys == {1, 2}
    ensures s.lock.None? && s.session == Some(0) && !s.connect && s.poll && s.client.SftpClient? && s.ops == map[]
    ensures s.created == 0 && !s.sftp
  {
    s := InWindow();
    s := Enter(s, 2, Reserve);
  }

  lemma SftpConnectCanBeOvertaken()
    ensures exists s :: Reachable(s) && s.poll && At(s, 1, Connecting(false, Some(0), true)) && At(s, 2, Reserved)
  {
    var s := Overtaken();
  }

  lemma Constructed(s: State, t: nat) returns (s': State)
    requires Reachable(s) && At(s, t, Reserved) && s.lock.None? && s.ops == map[] && s.created == 0
    requires s.client.SftpClient?
    ensures Reachable(s') && CanBegin(s', t, Drive(0))
    ensures s' == s.(ops := map[0 := Operation(true, false, None)], created := 1, threads := s.threads - {t})
  {
    FlagsAgree(s);
    assert forall u | u in s.threads :: CallInv(s, u);
    s' := Then(s, Construct(t));
  }

  /** The first call that drives an operation adopts the session that is there. */
  lemma Adopting(s: State, t: nat) returns (s': State)
    requires Reachable(s) && At(s, t, Reserved) && s.lock.None? && s.ops == map[] && s.created == 0
    requires s.poll && s.session.Some? && s.client.SftpClient?
    ensures Reachable(s') && s'.threads == s.threads[t := Driving(0, false)]
    ensures s'.ops == map[0 := Operation(true, false, s.session)] && s'.lock == Some(t)
    ensures s'.session == s.session && s'.sftp == s.sftp && s'.client == s.client && s'.poll
  {
    s' := Constructed(s, t);
    s' := Enter(s', t, Drive(0));
    s' := Then(s', AdoptSession(t));
  }

  lemma BothInWindows() returns (s: State)
    ensures Reachable(s) && s.threads == map[1 := Connecting(false, Some(0), true), 2 := Driving(0, true)]
    ensures s.lock.None? && s.ops == map[0 := Operation(true, false, Some(0))]
  {
    s := Overtaken();
    s := Adopting(s, 2);
    s := Then(s, GiveUpLock(2));
  }

  /** Then the operation adopts a session that is not its own, and loses it when the connect fails. */
  lemma OperationLosesSessionToConnect()
    ensures exists s :: Reachable(s) && At(s, 2, Driving(0, true)) && !OperationInPlace(s, 0)
  {
    var s := BothInWindows();
    s := Then(s, TakeLockBack(1));
    s := Then(s, Drop(1));
  }

  /** An SFTP session that is up. */
  lemma Up() returns (s: State)
    ensures Reachable(s) && s.client.SftpClient? && s.lock.None? && s.session == Some(0) && s.sftp && s.threads == map[]
    ensures !s.connect && !s.poll && s.ops == map[] && s.created == 0
  {
    s := Connected();
    s := Then(s, OpenSftp(1));
    s := Then(s, Leave(1));
  }

  /** An operation on it between two of its calls. */
  lemma BetweenCalls() returns (s: State)
    ensures Reachable(s) && s.client.SftpClient? && s.lock.None? && s.session == Some(0) && s.sftp && s.threads == map[]
    ensures s.poll && s.ops == map[0 := Operation(true, false, Some(0))]
  {
    s := Up();
    s := Enter(s, 1, Reserve);
    s := Adopting(s, 1);
    s := Then(s, Leave(1));
  }

  /** get() or put() while it runs code of its stream. */
  lemma InStream() returns (s: State)
    ensures Reachable(s) && s.threads == map[1 := Operating(0, true)] && s.lock.None? && s.session == Some(0)
    ensures !s.connect && !s.poll
  {
    s := Up();
    s := Enter(s, 1, Operate);
    s := Then(s, GiveUpLock(1));
  }

  /** disconnect() passes then, and the method goes on without its session. */
  lemma MethodLosesSession()
    ensures exists s :: Reachable(s) && At(s, 1, Operating(0, false)) && s.session.None?
  {
    var s := InStream();
    s := Enter(s, 2, Disconnect);
    s := Then(s, TakeLockBack(1));
  }

  /** Other methods of a reserved client do not all fail: on a session that is up they are let in, and if one of them
      finds the connection dead the operation loses its session between two of its calls.
   */
  lemma OperationLosesSessionToMethod()
    ensures exists s :: Reachable(s) && s.poll && Holds(s, OperationHolds(0)) && !OperationInPlace(s, 0)
  {
    var s := BetweenCalls();
    s := Enter(s, 2, Operate);
    s := Then(s, Drop(2));
  }
}
