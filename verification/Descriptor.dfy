/** The descriptor of a connection (src/SSH2Client.h, src/SSH2Client.cpp, src/SftpPollOperation.cpp): a session uses the
    descriptor's number itself, while the async I/O controller may close the socket at any moment without the lock.
 */
module Descriptor {
  import opened Ssh2Types

  datatype Driver = Blocking | Poll

  /** Where the thread is that connects or disconnects; both drivers go through the same stages. */
  datatype Stage =
    | Idle
    | Opened(driver: Driver)                    // the socket is connected
    | NumberRead(driver: Driver, fd: nat)       // holdSessionDescriptorUnlocked() has read the descriptor's number
    | Holding(unchecked: bool)                  // the descriptor is held; the poll driver has yet to set its mode
    | Prepared                                  // the session was created
    | Established                               // the handshake was begun
    | SessionFreed                              // disconnectUnlocked() has freed the session
    | SocketClosed                              // and has closed the socket

  /** socket and hold are the connection's, controller the descriptors the async I/O controller holds, and others the
      numbers the process uses for other things.  A session that got no descriptor has session == Some(None).
   */
  datatype State = State(
    stage: Stage, socket: Option<nat>, hold: Option<nat>, controller: multiset<nat>, others: set<nat>,
    session: Option<Option<nat>>)

  const START := State(Idle, None, None, multiset{}, {}, None)

  datatype Step =
    | Connect(driver: Driver, fd: nat)          // connectINET(), or the end of the poll state of a connection
    | ReadNumber
    | HoldNumber
    | CheckMode                                 // the poll driver's setFdNonBlocking()
    | CreateSession
    | Handshake(again: bool)
    | FreeSession
    | CloseSocket
    | ResetHold
    | CloseIo                                   // by the controller, without the lock
    | ControllerHolds(fd: nat)
    | ControllerReleases(fd: nat)
    | OthersOpen(fd: nat)                       // anything else in the process opens a file or closes one
    | OthersClose(fd: nat)

  /** The operating system does not give a number to anybody else while the socket is open on it or a hold exists. */
  predicate Kept(s: State, fd: nat) {
    s.socket == Some(fd) || s.hold == Some(fd) || fd in s.controller
  }

  predicate Free(s: State, fd: nat) {
    !Kept(s, fd) && fd !in s.others
  }

  /** A failure at any stage of a connect, and every disconnect, goes to disconnectUnlocked(), which starts here. */
  predicate CanDisconnect(s: State) {
    !s.stage.SessionFreed? && !s.stage.SocketClosed?
  }

  function Next(s: State, step: Step): Option<State> {
    match step
    case Connect(driver, fd) =>
      if s.stage.Idle? && Free(s, fd) then Some(s.(stage := Opened(driver), socket := Some(fd))) else None
    case ReadNumber =>
      if s.stage.Opened? && s.socket.Some? then Some(s.(stage := NumberRead(s.stage.driver, s.socket.value))) else None
    case HoldNumber =>
      // holdDescriptor() fails if the number is no longer the socket's
      if s.stage.NumberRead? && s.socket == Some(s.stage.fd)
      then Some(s.(stage := Holding(s.stage.driver.Poll?), hold := Some(s.stage.fd))) else None
    case CheckMode =>
      if s.stage == Holding(true) && s.socket.Some? then Some(s.(stage := Holding(false))) else None
    case CreateSession =>
      if s.stage == Holding(false) then Some(s.(stage := Prepared, session := Some(None))) else None
    case Handshake(again) =>
      if s.stage.Prepared? || (s.stage.Established? && again)
      then Some(s.(stage := Established, session := Some(s.socket))) else None
    case FreeSession => if CanDisconnect(s) then Some(s.(stage := SessionFreed, session := None)) else None
    case CloseSocket => if s.stage.SessionFreed? then Some(s.(stage := SocketClosed, socket := None)) else None
    case ResetHold => if s.stage.SocketClosed? then Some(s.(stage := Idle, hold := None)) else None
    case CloseIo => Some(s.(socket := None))
    case ControllerHolds(fd) =>
      if s.socket == Some(fd) then Some(s.(controller := s.controller + multiset{fd})) else None
    case ControllerReleases(fd) =>
      if fd in s.controller then Some(s.(controller := s.controller - multiset{fd})) else None
    case OthersOpen(fd) => if Free(s, fd) then Some(s.(others := s.others + {fd})) else None
    case OthersClose(fd) => Some(s.(others := s.others - {fd}))
  }

  /** A session's descriptor is held, and while the socket is open it is the one that is held. */
  predicate Inv(s: State) {
    && (forall fd | fd in s.others :: !Kept(s, fd))
    && (s.session.Some? <==> s.stage.Prepared? || s.stage.Established?)
    && (s.session.Some? ==> s.hold.Some? && (s.session.value.Some? ==> s.session.value == s.hold))
    && (s.stage.Holding? || s.session.Some? ==> s.hold.Some? && (s.socket.Some? ==> s.socket == s.hold))
    && (s.stage.Idle? || s.stage.Opened? || s.stage.NumberRead? ==> s.hold.None?)
    && (s.stage.SocketClosed? ==> s.socket.None?)
  }

  lemma InvKept(s: State, step: Step, s': State)
    requires Inv(s) && Next(s, step) == Some(s')
    ensures Inv(s')
  {
  }

  function Run(s: State, steps: seq<Step>): Option<State>
    decreases |steps|
  {
    if steps == [] then Some(s)
    else
      var next := Next(s, steps[0]);
      if next.None? then None else Run(next.value, steps[1..])
  }

  lemma {:induction false} RunKeepsInv(s: State, steps: seq<Step>)
    requires Inv(s) && Run(s, steps).Some?
    ensures Inv(Run(s, steps).value)
    decreases |steps|
  {
    if steps != [] {
      InvKept(s, steps[0], Next(s, steps[0]).value);
      RunKeepsInv(Next(s, steps[0]).value, steps[1..]);
    }
  }

  /** The session lives through the whole run. */
  predicate SessionLives(s: State, steps: seq<Step>)
    decreases |steps|
  {
    s.session.Some? && (steps != [] ==> Next(s, steps[0]).Some? && SessionLives(Next(s, steps[0]).value, steps[1..]))
  }

  /** Whatever the controller and the rest of the process do: as long as a session lives the same descriptor is held for
      it, the session uses no other number, and nobody else is given that number.
   */
  lemma {:induction false} DescriptorOutlivesSession(before: seq<Step>, during: seq<Step>)
    requires Run(START, before).Some? && SessionLives(Run(START, before).value, during)
    ensures Run(START, before + during).Some?
    ensures var s, s' := Run(START, before).value, Run(START, before + during).value;
            && s'.session.Some? && s'.hold.Some? && s'.hold == s.hold && s'.hold.value !in s'.others
            && (s'.session.value.Some? ==> s'.session.value == s.hold)
    decreases |during|
  {
    var s := Run(START, before).value;
    RunKeepsInv(START, before);
    if during == [] {
      assert before + during == before;
    } else {
      RunAppend(START, before, during[0]);
      assert before + during == (before + [during[0]]) + during[1..];
      DescriptorOutlivesSession(before + [during[0]], during[1..]);
    }
  }

  lemma {:induction false} RunAppend(s: State, steps: seq<Step>, step: Step)
    requires Run(s, steps).Some? && Next(Run(s, steps).value, step).Some?
    ensures Run(s, steps + [step]) == Next(Run(s, steps).value, step)
    decreases |steps|
  {
    if steps == [] {
      assert (steps + [step])[1..] == [];
    } else {
      assert (steps + [step])[1..] == steps[1..] + [step];
      RunAppend(Next(s, steps[0]).value, steps[1..], step);
    }
  }

  /** A connection that is over holds nothing: the number can be given away once the controller has let go of it too. */
  lemma NothingLeaks(steps: seq<Step>, fd: nat)
    requires Run(START, steps).Some? && Run(START, steps).value.stage.Idle?
    ensures var s := Run(START, steps).value;
            && s.session.None? && s.hold.None?
            && (s.socket.None? && fd !in s.controller + multiset(s.others) ==> Free(s, fd))
  {
    RunKeepsInv(START, steps);
  }

  /** One more step of a run from the start. */
  lemma Then(s: State, steps: seq<Step>, step: Step) returns (s': State, steps': seq<Step>)
    requires Run(START, steps) == Some(s) && Next(s, step).Some?
    ensures Next(s, step) == Some(s') && Run(START, steps') == Some(s') && steps' == steps + [step]
  {
    s', steps' := Next(s, step).value, steps + [step];
    RunAppend(START, steps, step);
  }

  /** Both drivers get to an established session on the descriptor they hold. */
  lemma SessionCanLive(driver: Driver, fd: nat) returns (s: State, steps: seq<Step>)
    ensures Run(START, steps) == Some(s) && s.stage.Established? && s.session == Some(Some(fd)) && s.hold == Some(fd)
  {
    s, steps := Then(START, [], Connect(driver, fd));
    s, steps := Then(s, steps, ReadNumber);
    s, steps := Then(s, steps, HoldNumber);
    if driver.Poll? { s, steps := Then(s, steps, CheckMode); }
    s, steps := Then(s, steps, CreateSession);
    s, steps := Then(s, steps, Handshake(false));
  }

  /** And from every state in which they can disconnect they get back to the idle one. */
  lemma CanDisconnectAgain(s: State, steps: seq<Step>) returns (s': State, steps': seq<Step>)
    requires Run(START, steps) == Some(s) && CanDisconnect(s)
    ensures Run(START, steps') == Some(s') && steps <= steps' && s'.stage.Idle? && s'.socket.None? && s'.hold.None?
  {
    s', steps' := Then(s, steps, FreeSession);
    s', steps' := Then(s', steps', CloseSocket);
    s', steps' := Then(s', steps', ResetHold);
  }

  /** Why the hold is needed: the number a socket had when a connect began can belong to somebody else before the
      session is created; without a hold the session would use that other file.
   */
  lemma NumberCanBeLost()
    ensures exists steps :: Run(START, steps).Some? && Run(START, steps).value.stage.NumberRead?
                            && Run(START, steps).value.stage.fd in Run(START, steps).value.others
  {
    var steps := [Connect(Blocking, 7), ReadNumber, CloseIo, OthersOpen(7)];
    var s1 := Next(START, steps[0]).value;
    var s2 := Next(s1, steps[1]).value;
    var s3 := Next(s2, steps[2]).value;
    var s4 := Next(s3, steps[3]).value;
    assert Run(s4, steps[4..]) == Some(s4);
    assert Run(s3, steps[3..]) == Some(s4);
    assert Run(s2, steps[2..]) == Some(s4);
    assert Run(s1, steps[1..]) == Some(s4);
    assert Run(START, steps) == Some(s4);
  }
}
