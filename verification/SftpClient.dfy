/** The connection object (SSH2Client and SFTPClient), its teardown, and the blocking connect driver.

    The libssh2 calls are modelled as oracles: whether they report EAGAIN or fail is decided by the schedule of the
    outside world, and their other results come from the environment.
 */
module SftpClient {
  import opened Ssh2Types
  import opened AuthSemantics
  import opened AuthGuard
  import opened Outside
  import AuthPlan

  type byte = bv8

  /** LIBSSH2_ERROR_EAGAIN */
  const EAGAIN := -37
  /** One read never returns more than an int can hold. */
  const MAX_READ := 0x7fff_ffff

  /** absolute_filename() */
  function AbsoluteFilename(base: string, path: string): string {
    if path != "" && path[0] == '/' then path else base + "/" + path
  }

  predicate IsAbsolute(path: string) {
    path != "" && path[0] == '/'
  }

  /** An absolute name is its own path; any other one is the last part of a path in the working directory, which no
      other working directory changes any more.
   */
  lemma PathIsAbsolute(base: string, path: string, other: string)
    ensures var r := AbsoluteFilename(base, path);
            && (if IsAbsolute(path) then r == path
                else |r| == |base| + 1 + |path| && base <= r && r[|base|] == '/' && r[|base| + 1..] == path)
            && (base == "" || IsAbsolute(base) ==> IsAbsolute(r) && AbsoluteFilename(other, r) == r)
  {
  }

  /** The working directory the server names, which is never empty. */
  function WorkingDirectory(env: Env): (cwd: string)
    ensures cwd != ""
  {
    if env.cwd == "" then "/" else env.cwd
  }

  /** An open remote file: what there is to read from it, and how much of it was read. */
  class RemoteHandle {
    const path: string
    const content: seq<byte>
    var offset: nat

    constructor (path: string, content: seq<byte>)
      ensures this.path == path && this.content == content && offset == 0
    {
      this.path, this.content := path, content;
      offset := 0;
    }
  }

  method Copy(buf: array<byte>, at: nat, data: seq<byte>)
    requires at + |data| <= buf.Length
    modifies buf
    ensures buf[at..at + |data|] == data
    ensures buf[..at] == old(buf[..at]) && buf[at + |data|..] == old(buf[at + |data|..])
  {
    for i := 0 to |data|
      invariant forall j | at <= j < at + i :: buf[j] == data[j - at]
      invariant buf[..at] == old(buf[..at]) && buf[at + i..] == old(buf[at + i..])
    {
      buf[at + i] := data[i];
    }
  }

  /** A connection to an SSH agent: the number of its identities and how many were selected so far. */
  datatype AgentConnection = AgentConnection(count: nat, selected: nat)

  /** How a blocking authentication step ended; Aborted is a cancellation or a wait that failed. */
  datatype Ending = Finished(status: Status) | Aborted

  /** Whether the history is what the plan's meaning says, or a part of it if the step was aborted. */
  predicate Faithful(e: Ending, history: Log, meaning: Outcome) {
    match e
    case Finished(status) => Outcome(history, status) == meaning
    case Aborted => history <= meaning.history
  }

  /** The authentication part of a connect: the method list, the plan built from it and how the plan ended. */
  datatype AuthRun = AuthRun(list: Option<string>, plan: seq<Attempt>, ending: Ending)

  predicate LogsIn(run: Option<AuthRun>) {
    run.Some? && run.value.ending.Finished? && run.value.ending.status.LoggedIn?
  }

  /** Whether there is somebody to log in and the server's host key is accepted. */
  predicate CanAuthenticate(env: Env, settings: AuthPlan.Settings, h: Log) {
    settings.user != "" && env.hostKeyAccepted(h)
  }

  class SFTPClient {
    const env: Env
    const settings: AuthPlan.Settings
    const memoryKeys: bool

    var session: bool                     // the libssh2 session; false is a null pointer
    var sftp: bool                        // the SFTP session of the libssh2 session
    var held: bool                        // the hold of the connection's descriptor
    var blocking: bool                    // the session's blocking mode
    var authenticatedWith: Option<string>
    var publickey: bool                   // whether the server advertised public key authentication
    var sftpPath: string
    var pollOpInProgress: bool

    var outside: Record                   // the decisions of the outside world, and what it did
    var log: Log
    ghost var guard: Guard
    var openHandles: set<RemoteHandle>    // the handles libssh2 has not freed
    var remote: map<string, seq<byte>>    // the files written on the server
    var staleCalls: nat                   // libssh2 calls made with a handle or agent whose session was freed

    ghost predicate Valid()
      reads `session, `sftp, `held, `authenticatedWith, `log, `guard, `openHandles
    {
      && AuthPlan.Consistent(settings)
      && Replay(log) == Some(guard)
      && guard.live == session
      && (session ==> held)
      && (sftp ==> session)
      && (openHandles != {} ==> sftp)
      && (authenticatedWith.Some? ==> session)
    }

    /** The working directory, if it was asked for. */
    predicate PathKnown()
      reads `sftpPath
    {
      sftpPath == "" || sftpPath == WorkingDirectory(env)
    }

    /** What was completed so far. */
    function History(): Log
      reads `log
    {
      Completed(log)
    }

    function TheWorld(): World
      reads `publickey
    {
      World(env, publickey, memoryKeys, settings.password)
    }

    /** A session may be used for authentication. */
    ghost predicate Ready()
      reads `session, `sftp, `held, `authenticatedWith, `log, `guard, `openHandles
    {
      Valid() && session && guard.verified && !sftp
    }

    constructor (env: Env, settings: AuthPlan.Settings, memoryKeys: bool, choices: seq<bool>)
      requires AuthPlan.Consistent(settings)
      ensures Valid() && !session && !pollOpInProgress && History() == [] && staleCalls == 0 && remote == map[]
      ensures sftpPath == "" && openHandles == {}
      ensures this.env == env && this.settings == settings && this.memoryKeys == memoryKeys
      ensures outside == Begin(choices) && log == []
    {
      this.env, this.settings, this.memoryKeys, outside := env, settings, memoryKeys, Begin(choices);
      session, sftp, held, blocking, publickey, pollOpInProgress := false, false, false, true, false, false;
      authenticatedWith, sftpPath, log, guard, openHandles, staleCalls := None, "", [], IDLE, {}, 0;
      remote := map[];
    }

    // ---- the log -----------------------------------------------------------------------------------------------

    method Emit(e: Event)
      requires Replay(log) == Some(guard) && Step(guard, e).Some?
      modifies `log, `guard
      ensures log == old(log) + [e] && guard == Step(old(guard), e).value && Replay(log) == Some(guard)
      ensures History() == if Completes(e) then old(History()) + [e] else old(History())
    {
      ReplayAppend(log, e);
      CompletedAppend(log, e);
      guard := Step(guard, e).value;
      log := log + [e];
    }

    // ---- the outside world -------------------------------------------------------------------------------------

    /** A decision that is not recorded otherwise. */
    method Asks() returns (yes: bool)
      modifies `outside
      ensures yes == First(old(outside).choices)
      ensures outside == old(outside).(choices := Rest(old(outside).choices))
    {
      yes := First(outside.choices);
      outside := outside.(choices := Rest(outside.choices));
    }

    /** Whether a wait fails or the operation is cancelled here. */
    method Interrupted() returns (yes: bool)
      modifies `outside
      ensures yes == First(old(outside).choices)
      ensures outside == old(outside).(choices := Rest(old(outside).choices),
                                       interruptions := old(outside).interruptions + Count(yes))
    {
      yes := Asks();
      outside := outside.(interruptions := outside.interruptions + Count(yes));
    }

    /** The caller gives an operation up, which nothing can refuse. */
    method CallerGivesUp()
      modifies `outside
      ensures outside == old(outside).(givenUp := old(outside).givenUp + 1)
    {
      outside := outside.(givenUp := outside.givenUp + 1);
    }

    /** connectionLost(): whether the last failure shows that the connection is dead. */
    method ConnectionLost() returns (yes: bool)
      modifies `outside
      ensures yes == First(old(outside).choices)
      ensures outside == old(outside).(choices := Rest(old(outside).choices),
                                       losses := old(outside).losses + Count(yes))
    {
      yes := Asks();
      outside := outside.(losses := outside.losses + Count(yes));
    }

    /** A dead connection was given up to be replaced; what failed on it is not held against the next one. */
    method StartAfresh()
      modifies `outside
      ensures outside == old(outside).(lost := old(outside).failures)
    {
      outside := outside.(lost := outside.failures);
    }

    /** Whether a call fails here for good. */
    method Fails() returns (yes: bool)
      modifies `outside
      ensures yes == First(old(outside).choices)
      ensures outside == old(outside).(choices := Rest(old(outside).choices),
                                       failures := old(outside).failures + Count(yes))
    {
      yes := Asks();
      outside := outside.(failures := outside.failures + Count(yes));
    }

    // ---- libssh2 -----------------------------------------------------------------------------------------------

    /** Whether a libssh2 call on the session reports EAGAIN, which it never does in blocking mode. */
    method Blocks() returns (again: bool)
      requires session
      modifies `outside
      ensures again == (!blocking && First(old(outside).choices))
      ensures outside == if blocking then old(outside) else old(outside).(choices := Rest(old(outside).choices))
    {
      again := false;
      if !blocking { again := Asks(); }
    }

    /** libssh2_userauth_...(): one call for an attempt that maps to a single libssh2 call. */
    method AuthCallUnlocked(a: Attempt) returns (answer: Answer)
      requires Ready() && !a.kind.Agent? && !a.kind.Provider?
      requires a.kind.PubkeyFile? ==> guard.armed == Some(a)
      modifies `log, `guard, `outside
      ensures Ready()
      ensures answer.WouldBlock? && a.kind.PubkeyFile? ==> guard == old(guard)
      ensures log == old(log) + [AuthCall(a, answer)] && Passed(old(outside), outside)
      ensures answer.WouldBlock? ==> Fewer(old(outside), outside) && History() == old(History())
      ensures !answer.WouldBlock? ==>
        && answer == Verdict(env.accepts(old(History()), a))
        && History() == RunCall(TheWorld(), a, old(History())).history
    {
      var again := Blocks();
      answer := if again then WouldBlock else Verdict(env.accepts(History(), a));
      Emit(AuthCall(a, answer));
    }

    /** libssh2_agent_init(), _connect() and _list_identities(). */
    method AgentOpen() returns (agent: Option<AgentConnection>)
      requires Ready()
      modifies `log, `guard
      ensures Ready() && log == old(log) + [AgentOpened(agent.Some?)]
      ensures match env.agentIdentities(old(History()))
              case None => agent == None && History() == old(History()) + [AgentOpened(false)]
              case Some(n) => agent == Some(AgentConnection(n, 0)) && History() == old(History()) + [AgentOpened(true)]
    {
      match env.agentIdentities(History())
      case None => agent := None; Emit(AgentOpened(false));
      case Some(n) => agent := Some(AgentConnection(n, 0)); Emit(AgentOpened(true));
    }

    /** libssh2_agent_userauth() with the identity that was selected last. */
    method AgentUserAuth(agent: AgentConnection) returns (answer: Answer)
      requires Ready() && 0 < agent.selected <= agent.count
      modifies `log, `guard, `outside
      ensures Ready()
      ensures log == old(log) + [AgentCall(agent.selected - 1, answer)] && Passed(old(outside), outside)
      ensures answer.WouldBlock? <==> !old(blocking) && First(old(outside).choices)
      ensures answer.WouldBlock? ==> Fewer(old(outside), outside) && History() == old(History())
      ensures outside.choices == if blocking then old(outside).choices else Rest(old(outside).choices)
      ensures !answer.WouldBlock? ==>
        && answer == Verdict(env.agentAccepts(old(History()), agent.selected - 1))
        && History() == old(History()) + [AgentCall(agent.selected - 1, answer)]
    {
      var again := Blocks();
      answer := if again then WouldBlock else Verdict(env.agentAccepts(History(), agent.selected - 1));
      Emit(AgentCall(agent.selected - 1, answer));
    }

    /** libssh2_agent_disconnect() and _free(), which use the session the agent was created from. */
    method AgentRelease()
      modifies `staleCalls
      ensures staleCalls == if session then old(staleCalls) else old(staleCalls) + 1
    {
      if !session { staleCalls := staleCalls + 1; }
    }

    /** libssh2_sftp_close_handle(); the handle is freed unless EAGAIN is reported. */
    method CloseHandle(h: RemoteHandle) returns (again: bool)
      requires h in openHandles ==> session
      modifies `outside, `openHandles, `staleCalls
      ensures again ==> Fewer(old(outside), outside) && openHandles == old(openHandles) && h in openHandles && session
                        && !blocking
      ensures !again ==> openHandles == old(openHandles) - {h}
      ensures Passed(old(outside), outside)
      ensures staleCalls == if h in old(openHandles) then old(staleCalls) else old(staleCalls) + 1
    {
      again := false;
      if h in openHandles {
        again := Blocks();
      } else {
        staleCalls := staleCalls + 1;
      }
      if !again { openHandles := openHandles - {h}; }
    }

    /** libssh2_sftp_init() */
    method SftpInit() returns (again: bool, ok: bool)
      requires Valid() && session && !sftp
      modifies `outside, `sftp
      ensures Valid() && sftp == ok && !(again && ok)
      ensures Called(again, !again && !ok, old(outside))
      ensures FailsAndYes(old(outside).choices) && !blocking ==>
        !again && !ok && outside.choices == Skip(old(outside).choices, 2)
    {
      var failed := false;
      again := Blocks();
      if !again { failed := Fails(); }
      ok := !again && !failed;
      sftp := ok;
    }

    /** What a call that may report EAGAIN or fail does to the record: one decision about each, as far as it gets. */
    predicate Called(again: bool, failed: bool, before: Record)
      reads `outside
    {
      && Later(before, outside) && (again ==> Fewer(before, outside))
      && outside == before.(choices := outside.choices, failures := before.failures + Count(failed))
    }

    /** The request for the remote working directory; an error is None. */
    method RealPath() returns (again: bool, path: Option<string>)
      requires Valid() && session && sftp
      modifies `outside
      ensures Called(again, !again && path.None?, old(outside))
      ensures path.Some? ==> path.value == WorkingDirectory(env)
    {
      path := None;
      again := Blocks();
      if again { return; }
      var failed := Fails();
      if !failed { path := Some(WorkingDirectory(env)); }
    }

    /** libssh2_sftp_stat(); an error is None. */
    method Stat(path: string) returns (again: bool, size: Option<nat>)
      requires Valid() && session && sftp
      modifies `outside
      ensures Called(again, !again && size.None?, old(outside)) && !(again && size.Some?)
      ensures size.Some? ==> size.value == env.statSize(path)
      ensures Calm(old(outside).choices, 2) && !blocking ==>
        size.Some? && outside.choices == Skip(old(outside).choices, 2)
      ensures FailsAndYes(old(outside).choices) && !blocking ==>
        !again && size.None? && outside.choices == Skip(old(outside).choices, 2)
    {
      size := None;
      again := Blocks();
      if again { return; }
      var failed := Fails();
      if !failed { size := Some(env.statSize(path)); }
    }

    /** libssh2_sftp_open() for reading, or with write set for a new or truncated file; an error is a null handle. */
    method Open(path: string, write: bool) returns (again: bool, h: RemoteHandle?)
      requires Valid() && session && sftp
      modifies `outside, `openHandles, `remote
      ensures Valid() && !(again && h != null) && (again ==> !blocking)
      ensures Called(again, !again && h == null, old(outside))
      ensures h == null ==> openHandles == old(openHandles)
      ensures h != null ==> fresh(h) && openHandles == old(openHandles) + {h}
                            && h.path == path && h.offset == 0 && h.content == if write then [] else env.files(path)
      ensures remote == if h != null && write then old(remote)[path := []] else old(remote)
      ensures Calm(old(outside).choices, 2) && !blocking ==>
        h != null && outside.choices == Skip(old(outside).choices, 2)
    {
      h := null;
      again := Blocks();
      if again { return; }
      var failed := Fails();
      if !failed {
        h := new RemoteHandle(path, if write then [] else env.files(path));
        openHandles := openHandles + {h};
        if write { remote := remote[path := []]; }
      }
    }

    /** Whether a read or write fails for good. */
    method Breaks() returns (yes: bool)
      modifies `outside
      ensures yes == First(old(outside).choices)
      ensures outside == old(outside).(choices := Rest(old(outside).choices),
                                       readErrors := old(outside).readErrors + Count(yes))
    {
      yes := Asks();
      outside := outside.(readErrors := outside.readErrors + Count(yes));
    }

    /** Some negative error code other than EAGAIN. */
    static method ErrorCode() returns (rc: int)
      ensures rc < 0 && rc != EAGAIN
    {
      rc := *;
      if rc >= 0 || rc == EAGAIN { rc := -1; }
    }

    /** libssh2_sftp_read() of at most n bytes into buf at position at.  The result is the number of bytes read, EAGAIN,
        or another negative error code.  Nothing is read at the end of the file; a file is not read at its end forever,
        because the connection breaks when the decisions are used up.
     */
    method Read(h: RemoteHandle, buf: array<byte>, at: nat, n: nat) returns (rc: int)
      requires h in openHandles && Valid() && 0 < n && at + n <= buf.Length && h.offset <= |h.content|
      modifies `outside, h`offset, buf
      ensures h.offset <= |h.content| && Later(old(outside), outside)
      ensures outside == old(outside).(choices := outside.choices,
                                       readErrors := old(outside).readErrors + Count(rc < 0 && rc != EAGAIN),
                                       emptyReads := old(outside).emptyReads + Count(rc == 0),
                                       starved := outside.starved)
      ensures outside.starved > old(outside).starved ==> rc < 0 && old(h.offset) == |h.content|
      ensures rc < 0 ==> h.offset == old(h.offset) && buf[..] == old(buf[..])
      ensures rc == EAGAIN || rc == 0 ==> Fewer(old(outside), outside)
      ensures rc >= 0 ==> rc <= n && rc <= MAX_READ && h.offset == old(h.offset) + rc
      ensures rc >= 0 ==> buf[at..at + rc] == h.content[old(h.offset)..h.offset]
      ensures rc >= 0 ==> buf[..at] == old(buf[..at]) && buf[at + rc..] == old(buf[at + rc..])
      ensures !blocking && Calm(old(outside).choices, 1) && First(Rest(old(outside).choices)) ==>
        rc < 0 && rc != EAGAIN && outside.choices == Skip(old(outside).choices, 2)
    {
      var again := Blocks();
      if again { return EAGAIN; }
      var broken := Breaks();
      if broken {
        rc := ErrorCode();
        return;
      }
      var room := |h.content| - h.offset;
      var most := if n < room then n else room;
      most := if most < MAX_READ then most else MAX_READ;
      var k: int := *;
      if k < 1 || k > most { k := most; }
      if outside.choices != [] {
        var none := Asks();
        if none { k := 0; }
      } else if k == 0 {
        outside := outside.(readErrors := outside.readErrors + 1, starved := outside.starved + 1);
        rc := ErrorCode();
        return;
      }
      Copy(buf, at, h.content[h.offset..h.offset + k]);
      h.offset := h.offset + k;
      rc := k;
      outside := outside.(emptyReads := outside.emptyReads + Count(rc == 0));
    }

    /** libssh2_sftp_write() of at most n bytes from buf at position at.  The result is the number of bytes accepted,
        EAGAIN, or another negative error code.
     */
    method Write(h: RemoteHandle, buf: array<byte>, at: nat, n: nat) returns (rc: int)
      requires h in openHandles && h.path in remote && Valid() && 0 < n && at + n <= buf.Length
      modifies `outside, `remote
      ensures Later(old(outside), outside) && h.path in remote
      ensures outside == old(outside).(choices := outside.choices,
                                       failures := old(outside).failures + Count(rc < 0 && rc != EAGAIN))
      ensures rc < 0 ==> remote == old(remote)
      ensures rc == EAGAIN || rc == 0 ==> Fewer(old(outside), outside)
      ensures rc >= 0 ==> rc <= n && remote == old(remote)[h.path := old(remote)[h.path] + buf[at..at + rc]]
    {
      var again := Blocks();
      if again { return EAGAIN; }
      var broken := Fails();
      if broken {
        rc := ErrorCode();
        return;
      }
      var k: int := *;
      if k < 1 || k > n { k := n; }
      if outside.choices != [] {
        var none := Asks();
        if none { k := 0; }
      }
      remote := remote[h.path := remote[h.path] + buf[at..at + k]];
      rc := k;
    }

    /** doSessionErrUnlocked(): after raising the error, a readable connection is taken for a closed one and dropped. */
    method SessionError() returns (dropped: bool)
      requires Valid()
      modifies `session, `sftp, `held, `blocking, `authenticatedWith, `log, `guard, `outside, `openHandles, `staleCalls
      ensures Valid() && History() == old(History()) && Later(old(outside), outside) && staleCalls == old(staleCalls)
      ensures outside.drops == old(outside).drops + Count(dropped)
      ensures outside == old(outside).(choices := outside.choices, failures := outside.failures, drops := outside.drops)
      ensures dropped == First(old(outside).choices)
      ensures dropped ==> Disconnected() && log == if old(session) then old(log) + [SessionClosed] else old(log)
      ensures !dropped ==> Untouched()
    {
      dropped := Asks();
      outside := outside.(drops := outside.drops + Count(dropped));
      if dropped { DisconnectUnlocked(null); }
    }

    /** closeTransportUnlocked(): only when no session uses the descriptor. */
    method CloseTransport()
      requires Valid() && !session
      modifies `held
      ensures Valid() && Disconnected()
    {
      held := false;
    }

    method SetBlocking(mode: bool)
      modifies `blocking
      ensures blocking == if session then mode else old(blocking)
    {
      if session { blocking := mode; }
    }

    // ---- waiting and teardown ----------------------------------------------------------------------------------

    /** waitSocketUnlocked() while disconnecting: a failure only ends the wait. */
    method WaitInDisconnect() returns (failed: bool)
      requires session
      modifies `outside
      ensures Later(old(outside), outside)
      ensures outside == old(outside).(choices := outside.choices, failures := old(outside).failures + Count(failed))
    {
      failed := Fails();
    }

    /** Everything is as it was, decisions of the outside world aside. */
    twostate predicate Untouched()
      reads this
    {
      unchanged(`session, `sftp, `held, `blocking, `authenticatedWith, `log, `guard, `openHandles, `staleCalls)
    }

    /** waitSocketUnlocked(): a cancellation or a failed wait has disconnected when it returns true. */
    method WaitSocket(adh: QSftpHelper?) returns (failed: bool)
      requires Valid() && session && (adh != null ==> adh.client == this && adh.Valid())
      modifies `session, `sftp, `held, `blocking, `authenticatedWith, `log, `guard, `outside, `openHandles, `staleCalls
      modifies adh
      ensures Valid() && (adh != null ==> adh.Valid())
      ensures failed == First(old(outside).choices) && Waited(old(outside), outside, failed)
      ensures failed ==> Disconnected() && (adh != null ==> adh.handle == null) && log == old(log) + [SessionClosed]
      ensures !failed ==>
        Untouched() && outside.choices == Rest(old(outside).choices) && (adh != null ==> unchanged(adh))
      ensures History() == old(History()) && staleCalls == old(staleCalls)
      decreases 5
    {
      failed := Interrupted();
      if failed { DisconnectUnlocked(adh); }
    }

    /** Nothing of the connection is left. */
    ghost predicate Disconnected()
      reads this
    {
      !session && !sftp && !held && openHandles == {} && authenticatedWith.None?
    }

    /** SFTPClient::disconnectUnlocked(): the dependent handle, the SFTP session and the SSH session, in this order.
        Closing the handle can fail and then disconnects itself; the outer call finds nothing left to free.
     */
    method DisconnectUnlocked(adh: QSftpHelper?)
      requires Valid() && (adh != null ==> adh.client == this && adh.Valid())
      modifies `session, `sftp, `held, `blocking, `authenticatedWith, `log, `guard, `outside, `openHandles, `staleCalls
      modifies adh
      ensures Valid() && Disconnected() && (adh != null ==> adh.handle == null)
      ensures History() == old(History()) && OnlyFailed(old(outside), outside) && staleCalls == old(staleCalls)
      ensures log == if old(session) then old(log) + [SessionClosed] else old(log)
      decreases if adh == null then 0 else 4
    {
      if adh != null { adh.PreDisconnect(); }
      DoShutdown();
      SshDisconnect();
    }

    /** SFTPClient::doShutdown() */
    method DoShutdown()
      requires Valid()
      modifies `sftp, `blocking, `outside, `openHandles
      ensures Valid() && !sftp && openHandles == {} && OnlyFailed(old(outside), outside)
    {
      if sftp {
        blocking := false;
        var again := Blocks();
        while again
          invariant Valid() && session && OnlyFailed(old(outside), outside)
          decreases |outside.choices|, again
        {
          var failed := WaitInDisconnect();
          if failed { break; }
          again := Blocks();
        }
        sftp, openHandles := false, {};
        blocking := true;
      }
    }

    /** SSH2Client::disconnectUnlocked() after the channels and listeners were closed. */
    method SshDisconnect()
      requires Valid() && !sftp && openHandles == {}
      modifies `session, `held, `blocking, `authenticatedWith, `log, `guard, `outside
      ensures Valid() && Disconnected()
      ensures History() == old(History()) && OnlyFailed(old(outside), outside)
      ensures log == if old(session) then old(log) + [SessionClosed] else old(log)
    {
      if session {
        blocking := false;
        FinishCall();
        FinishCall();
        Emit(SessionClosed);
        session, authenticatedWith := false, None;
      }
      authenticatedWith := None;
      held := false;
    }

    /** One of the two loops that repeat a call until it completes or the wait for it fails. */
    method FinishCall()
      requires session
      modifies `outside
      ensures OnlyFailed(old(outside), outside)
    {
      var again := Blocks();
      while again
        invariant OnlyFailed(old(outside), outside)
        decreases |outside.choices|, again
      {
        var failed := WaitInDisconnect();
        if failed { break; }
        again := Blocks();
      }
    }

    // ---- connect stages used by both drivers -------------------------------------------------------------------

    /** Refused while a poll operation has reserved the client. */
    predicate Reserved()
      reads `pollOpInProgress
    {
      pollOpInProgress
    }

    /** checkConnectPreconditionsUnlocked(): may be cancelled, needs a user, and ends an old session. */
    method CheckConnectPreconditions() returns (failed: bool)
      requires Valid()
      modifies `session, `sftp, `held, `blocking, `authenticatedWith, `log, `guard, `outside, `openHandles, `staleCalls
      ensures Valid() && (if failed then Untouched() else !session && settings.user != "")
      ensures failed <==> settings.user == "" || First(old(outside).choices)
      ensures outside.interruptions == old(outside).interruptions + Count(First(old(outside).choices))
      ensures !failed ==> OnlyFailed(old(outside), outside)
      ensures History() == old(History()) && Later(old(outside), outside) && staleCalls == old(staleCalls)
      ensures outside.emptyReads == old(outside).emptyReads && outside.readErrors == old(outside).readErrors
      ensures outside.drops == old(outside).drops && outside.losses == old(outside).losses
      ensures outside.starved == old(outside).starved
      ensures !old(session) ==> log == old(log) && held == old(held) && outside.choices == Rest(old(outside).choices)
      ensures log == old(log) || log == old(log) + [SessionClosed]
    {
      failed := Interrupted();
      if failed || settings.user == "" { return true; }
      if session { DisconnectUnlocked(null); }
    }

    /** holdSessionDescriptorUnlocked(): fails if the socket was closed meanwhile. */
    method HoldSessionDescriptor() returns (failed: bool)
      requires Valid() && !session
      modifies `held, `outside
      ensures Valid() && (failed ==> held == old(held)) && (!failed ==> held)
      ensures failed == First(old(outside).choices)
      ensures outside == old(outside).(choices := Rest(old(outside).choices),
                                       interruptions := old(outside).interruptions + Count(failed))
    {
      failed := Interrupted();
      if !failed { held := true; }
    }

    /** The libssh2 session of a connected socket. */
    method BeginSession()
      requires Valid() && !session && held
      modifies `session, `blocking, `log, `guard
      ensures Valid() && session && !blocking && !guard.verified
      ensures log == old(log) + [SessionOpened] && History() == old(History())
    {
      Emit(SessionOpened);
      session, blocking := true, false;
    }

    /** prepareSessionUnlocked(): creates the libssh2 session in non-blocking mode. */
    method PrepareSession() returns (failed: bool)
      requires Valid() && !session && held
      modifies `session, `sftp, `held, `blocking, `authenticatedWith, `log, `guard, `outside, `openHandles, `staleCalls
      ensures Valid() && History() == old(History()) && staleCalls == old(staleCalls)
      ensures OnlyFailed(old(outside), outside) && failed == First(old(outside).choices)
      ensures failed ==> outside.failures > old(outside).failures && Disconnected() && log == old(log)
      ensures !failed ==> session && !blocking && !sftp && !guard.verified && authenticatedWith.None?
                          && log == old(log) + [SessionOpened] && outside.failures == old(outside).failures
                          && outside.choices == Rest(old(outside).choices)
    {
      failed := Fails();
      if failed { DisconnectUnlocked(null); } else { BeginSession(); }
    }

    /** verifyHostKeyUnlocked(): disconnects when the key is not accepted. */
    method VerifyHostKey() returns (failed: bool)
      requires Valid() && session && !sftp
      modifies `session, `sftp, `held, `blocking, `authenticatedWith, `log, `guard, `outside, `openHandles, `staleCalls
      ensures Valid() && History() == old(History()) && staleCalls == old(staleCalls)
      ensures failed <==> !env.hostKeyAccepted(old(History()))
      ensures !failed ==> Ready() && blocking == old(blocking) && authenticatedWith == old(authenticatedWith)
                          && log == old(log) + [HostKeyChecked(true)] && outside == old(outside)
      ensures failed ==> Disconnected() && log == old(log) + [HostKeyChecked(false), SessionClosed]
                         && OnlyFailed(old(outside), outside)
    {
      failed := !env.hostKeyAccepted(History());
      Emit(HostKeyChecked(!failed));
      if failed { DisconnectUnlocked(null); }
    }

    /** libssh2_userauth_list() */
    method UserAuthList() returns (again: bool, list: Option<string>)
      requires Valid() && session
      modifies `outside
      ensures Passed(old(outside), outside) && (again ==> Fewer(old(outside), outside))
      ensures again == (!blocking && First(old(outside).choices))
      ensures !blocking ==> outside.choices == Rest(old(outside).choices)
      ensures !again ==> list == env.authList(History())
    {
      again := Blocks();
      list := env.authList(History());
    }

    /** buildAuthPlanUnlocked(), which also records the advertised methods. */
    method BuildAuthPlan(list: Option<string>) returns (plan: seq<Attempt>)
      requires Valid()
      modifies `publickey
      ensures Valid() && publickey == AuthPlan.Advertises(list).publickey
      ensures AuthPlan.IsPlan(settings, memoryKeys, AuthPlan.Advertises(list), plan)
    {
      publickey := AuthPlan.Advertises(list).publickey;
      plan := AuthPlan.BuildPlan(settings, memoryKeys, AuthPlan.Advertises(list));
    }

    /** checkAuthAttemptAccessUnlocked(): disconnects when the sandbox denies a key file. */
    method CheckAttemptAccess(a: Attempt) returns (failed: bool)
      requires Ready() && authenticatedWith.None?
      modifies `session, `sftp, `held, `blocking, `authenticatedWith, `log, `guard, `outside, `openHandles, `staleCalls
      ensures Valid() && staleCalls == old(staleCalls) && OnlyFailed(old(outside), outside)
      ensures failed ==> Disconnected() && log == old(log) + [AccessChecked(a, false), SessionClosed]
      ensures !failed ==> Ready() && authenticatedWith.None? && blocking == old(blocking) && outside == old(outside)
                          && log == old(log) + if a.kind.PubkeyFile? then [AccessChecked(a, true)] else []
      ensures a.kind.PubkeyFile? ==>
        && failed == !env.access(old(History()), a)
        && History() == old(History()) + [AccessChecked(a, !failed)]
        && (!failed ==> guard.armed == Some(a))
      ensures !a.kind.PubkeyFile? ==> !failed && History() == old(History())
    {
      failed := false;
      if a.kind.PubkeyFile? {
        failed := !env.access(History(), a);
        Emit(AccessChecked(a, !failed));
        if failed { DisconnectUnlocked(null); }
      }
    }

    /** getProviderCandidatesUnlocked() */
    method GetProviderCandidates() returns (list: Option<seq<Candidate>>)
      requires Ready()
      modifies `log, `guard
      ensures Ready() && list == env.candidates(old(History())) && log == old(log) + [CandidatesFetched(list.Some?)]
      ensures History() == old(History()) + [CandidatesFetched(list.Some?)]
    {
      list := env.candidates(History());
      Emit(CandidatesFetched(list.Some?));
    }

    /** addMemoryKeyAttemptUnlocked() */
    method AddMemoryKeyAttempt(pub: Option<string>, priv: string) returns (plan: seq<Attempt>)
      ensures |plan| <= 1
      ensures forall a ::
        a in plan <==> (a == Attempt(PubkeyMemory, if pub.Some? then pub.value else "", priv, "")
                        && priv != "" && memoryKeys)
    {
      plan := [];
      if !memoryKeys || priv == "" { return; }
      plan := [Attempt(PubkeyMemory, if pub.Some? then pub.value else "", priv, "")];
    }

    /** The part of resolveProviderCandidateUnlocked() that asks the provider for the material of a candidate. */
    method AskForMaterial(c: Candidate, material: Material) returns (plan: Option<seq<Attempt>>)
      requires AsksForMaterial(c)
      ensures IsMeant(TheWorld(), c, material, plan)
    {
      if material.MaterialException? { return if c.optional then Some([]) else None; }
      if material.MaterialNotAHash? || material.kind.None? { return None; }
      if material.kind.value == "file" {
        if material.path.None? { return None; }
        return Some([Attempt(PubkeyFile, "", material.path.value, settings.password)]);
      }
      if material.kind.value == "text" {
        if material.privateText.None? { return None; }
        var added := AddMemoryKeyAttempt(material.publicText, material.privateText.value);
        return Some(added);
      }
      if material.kind.value == "data" {
        if material.privateData.None? { return None; }
        var added := AddMemoryKeyAttempt(material.publicText, material.privateData.value);
        return Some(added);
      }
      plan := if c.optional then Some([]) else None;
    }

    /** The branches of resolveProviderCandidateUnlocked(). */
    method CandidatePlan(c: Candidate, material: Material) returns (plan: Option<seq<Attempt>>)
      ensures IsMeant(TheWorld(), c, material, plan)
    {
      if c.CandidateNotAHash? || c.kind.None? { return None; }
      if c.kind.value == "agent" {
        return Some(if publickey then [AuthPlan.Bare(Agent)] else []);
      }
      if c.kind.value == "file" {
        if c.path.None? { return None; }
        return Some([Attempt(PubkeyFile, "", c.path.value, settings.password)]);
      }
      if c.kind.value != "in-memory" && c.kind.value != "reference" { return None; }
      plan := AskForMaterial(c, material);
    }

    /** resolveProviderCandidateUnlocked() */
    method ResolveProviderCandidate(list: seq<Candidate>, i: nat) returns (plan: Option<seq<Attempt>>)
      requires Ready() && i < |list|
      modifies `log, `guard
      ensures Ready() && log == old(log) + [CandidateResolved(i, plan.Some?)]
      ensures plan == ResolveCandidate(TheWorld(), list[i], env.material(old(History()), i))
      ensures History() == old(History()) + [CandidateResolved(i, plan.Some?)]
    {
      plan := CandidatePlan(list[i], env.material(History(), i));
      ResolvedAsMeant(TheWorld(), list[i], env.material(History(), i), plan);
      Emit(CandidateResolved(i, plan.Some?));
    }

    // ---- the blocking driver -----------------------------------------------------------------------------------

    /** How a blocking authentication step leaves the connection. */
    ghost predicate Reported(e: Ending)
      reads this
    {
      && (e.Aborted? ==> Disconnected())
      && (e.Finished? && !e.status.Failed? ==> Ready()) && !sftp
      && (e.Finished? ==> authenticatedWith == if e.status.LoggedIn? then Some(e.status.reported) else None)
    }

    /** What every blocking authentication step does: it is aborted only by a wait that failed or a cancellation, and it
        uses a freed agent exactly if the session ended while a call of the agent had to be repeated; n is the length of
        the log when the connect began.
     */
    twostate predicate Stepped(n: nat, e: Ending)
      reads this
    {
      && Valid() && Reported(e) && Later(old(outside), outside) && n <= |log|
      && (e.Aborted? ==> outside.interruptions > old(outside).interruptions)
      && (e.Finished? ==> NoneAwaited(n, log))
      && (e.Finished? && !e.status.Failed? ==> blocking == old(blocking))
      && staleCalls == old(staleCalls) + Count(ClosedAwaitingAgent(n, log))
    }

    /** What holds between two steps that go on. */
    twostate predicate InProgress(n: nat)
      reads this
    {
      && Ready() && authenticatedWith.None? && Later(old(outside), outside) && NoneAwaited(n, log)
      && staleCalls == old(staleCalls) && blocking == old(blocking)
    }

    /** Repeats the call for the selected identity until it completes. */
    method AgentAnswer(ghost n: nat, agent: AgentConnection) returns (answer: Answer, failed: bool)
      requires Ready() && authenticatedWith.None? && n <= |log| && 0 < agent.selected <= agent.count
      modifies `session, `sftp, `held, `blocking, `authenticatedWith, `log, `guard, `outside, `openHandles, `staleCalls
      ensures Valid() && Later(old(outside), outside) && staleCalls == old(staleCalls) && n < |log|
      ensures failed ==> Disconnected() && History() == old(History())
                         && outside.interruptions > old(outside).interruptions && ClosedAwaitingAgent(n, log)
      ensures !failed ==>
        && Ready() && authenticatedWith.None? && blocking == old(blocking)
        && answer == Verdict(env.agentAccepts(old(History()), agent.selected - 1))
        && log[|log| - 1] == AgentCall(agent.selected - 1, answer)
        && History() == old(History()) + [AgentCall(agent.selected - 1, answer)]
      ensures !old(blocking) && WaitFails(old(outside).choices, 0) ==> failed
    {
      failed := false;
      answer := AgentUserAuth(agent);
      ghost var vain := !blocking && WaitFails(old(outside).choices, 0);
      while answer.WouldBlock?
        invariant Ready() && authenticatedWith.None? && Later(old(outside), outside) && staleCalls == old(staleCalls)
        invariant blocking == old(blocking) && n < |log| && log[|log| - 1] == AgentCall(agent.selected - 1, answer)
        invariant answer.WouldBlock? ==> History() == old(History())
        invariant !answer.WouldBlock? ==>
          && answer == Verdict(env.agentAccepts(old(History()), agent.selected - 1))
          && History() == old(History()) + [AgentCall(agent.selected - 1, answer)]
        invariant vain ==> answer.WouldBlock? && outside.choices == Rest(old(outside).choices)
        decreases |outside.choices|, answer.WouldBlock?
      {
        failed := WaitSocket(null);
        if failed { return; }
        answer := AgentUserAuth(agent);
      }
    }

    /** One identity of tryAgentAuth(); None if the connection was given up.  When the wait for the call fails, the wait
        itself has already freed the session, so the agent is released after it.
     */
    method TryIdentity(ghost n: nat, agent: AgentConnection) returns (answer: Option<Answer>)
      requires Ready() && authenticatedWith.None? && NoneAwaited(n, log) && 0 < agent.selected <= agent.count
      modifies `session, `sftp, `held, `blocking, `authenticatedWith, `log, `guard, `outside, `openHandles, `staleCalls
      ensures Valid() && Later(old(outside), outside) && n <= |log|
      ensures answer.None? ==> Disconnected() && History() == old(History())
                               && outside.interruptions > old(outside).interruptions
      ensures answer.Some? ==>
        && Ready() && authenticatedWith.None? && blocking == old(blocking) && NoneAwaited(n, log)
        && answer.value == Verdict(env.agentAccepts(old(History()), agent.selected - 1))
        && History() == old(History()) + [AgentCall(agent.selected - 1, answer.value)]
      ensures staleCalls == old(staleCalls) + Count(ClosedAwaitingAgent(n, log))
      ensures !old(blocking) && WaitFails(old(outside).choices, 1) ==> answer.None? && ClosedAwaitingAgent(n, log)
    {
      var cancelled := Interrupted();
      if cancelled {
        AgentRelease();
        DisconnectUnlocked(null);
        return None;
      }
      var a, failed := AgentAnswer(n, agent);
      if failed {
        AgentRelease();
        DisconnectUnlocked(null);
        return None;
      }
      answer := Some(a);
    }

    /** The next identity of tryAgentAuth(); an agent that has logged in is released. */
    method TryNext(ghost n: nat, agent: AgentConnection, ghost meaning: Outcome) returns (e: Ending)
      requires Ready() && authenticatedWith.None? && NoneAwaited(n, log) && 0 < agent.selected <= agent.count
      requires meaning == RunIdentities(TheWorld(), agent.selected - 1, agent.count, History())
      modifies `session, `sftp, `held, `blocking, `authenticatedWith, `log, `guard, `outside, `openHandles, `staleCalls
      ensures Stepped(n, e) && (e.Finished? ==> !e.status.Failed?)
      ensures if e == Finished(Continue)
              then meaning == RunIdentities(TheWorld(), agent.selected, agent.count, History())
              else Faithful(e, History(), meaning)
      ensures !old(blocking) && WaitFails(old(outside).choices, 1) ==> e.Aborted? && ClosedAwaitingAgent(n, log)
    {
      IdentitiesExtend(TheWorld(), agent.selected - 1, agent.count, History());
      var answer := TryIdentity(n, agent);
      if answer.None? { return Aborted; }
      if answer.value.Rejected? { return Finished(Continue); }
      authenticatedWith := Some(AuthenticatedWith(Agent));
      AgentRelease();
      e := Finished(LoggedIn(AuthenticatedWith(Agent)));
    }

    /** The identities of tryAgentAuth(). */
    method TryIdentities(ghost n: nat, count: nat) returns (e: Ending)
      requires Ready() && authenticatedWith.None? && NoneAwaited(n, log)
      modifies `session, `sftp, `held, `blocking, `authenticatedWith, `log, `guard, `outside, `openHandles, `staleCalls
      ensures Stepped(n, e) && Faithful(e, History(), RunIdentities(TheWorld(), 0, count, old(History())))
      ensures !old(blocking) && WaitFails(old(outside).choices, 1) && count > 0 ==> ClosedAwaitingAgent(n, log)
    {
      ghost var meaning := RunIdentities(TheWorld(), 0, count, History());
      ghost var vain := !blocking && WaitFails(outside.choices, 1);
      var agent := AgentConnection(count, 0);
      while agent.selected < agent.count
        invariant InProgress(n) && agent.selected <= agent.count == count
        invariant meaning == RunIdentities(TheWorld(), agent.selected, count, History())
        invariant vain ==> outside == old(outside) && agent.selected == 0
      {
        agent := agent.(selected := agent.selected + 1);
        e := TryNext(n, agent, meaning);
        if e != Finished(Continue) { return; }
      }
      e := Finished(Continue);
    }

    /** tryAgentAuth() */
    method TryAgentAuth(ghost n: nat) returns (e: Ending)
      requires Ready() && authenticatedWith.None? && NoneAwaited(n, log)
      modifies `session, `sftp, `held, `blocking, `authenticatedWith, `log, `guard, `outside, `openHandles, `staleCalls
      ensures Stepped(n, e) && Faithful(e, History(), RunAgent(TheWorld(), old(History())))
      ensures !old(blocking) && WaitFails(old(outside).choices, 1) && HasIdentity(old(History())) ==>
        ClosedAwaitingAgent(n, log)
    {
      var agent := AgentOpen();
      if agent.None? { return Finished(Continue); }
      e := TryIdentities(n, agent.value.count);
      if e == Finished(Continue) { AgentRelease(); }
    }

    predicate HasIdentity(h: Log) {
      env.agentIdentities(h).Some? && env.agentIdentities(h).value > 0
    }

    /** Repeats the authentication call of an attempt until it completes. */
    method AttemptAnswer(ghost n: nat, a: Attempt) returns (answer: Answer, failed: bool)
      requires Ready() && authenticatedWith.None? && n <= |log| && !a.kind.Agent? && !a.kind.Provider?
      requires a.kind.PubkeyFile? ==> guard.armed == Some(a)
      modifies `session, `sftp, `held, `blocking, `authenticatedWith, `log, `guard, `outside, `openHandles, `staleCalls
      ensures Valid() && Later(old(outside), outside) && staleCalls == old(staleCalls) && NoneAwaited(n, log)
      ensures failed ==> Disconnected() && History() == old(History())
                         && outside.interruptions > old(outside).interruptions
      ensures !failed ==>
        && Ready() && authenticatedWith.None? && blocking == old(blocking)
        && answer == Verdict(env.accepts(old(History()), a))
        && History() == RunCall(TheWorld(), a, old(History())).history
    {
      failed := false;
      answer := AuthCallUnlocked(a);
      while answer.WouldBlock?
        invariant Ready() && authenticatedWith.None? && Later(old(outside), outside) && staleCalls == old(staleCalls)
        invariant blocking == old(blocking) && n < |log| && log[|log| - 1] == AuthCall(a, answer)
        invariant answer.WouldBlock? ==> History() == old(History()) && (a.kind.PubkeyFile? ==> guard.armed == Some(a))
        invariant !answer.WouldBlock? ==>
          && answer == Verdict(env.accepts(old(History()), a))
          && History() == RunCall(TheWorld(), a, old(History())).history
        decreases |outside.choices|, answer.WouldBlock?
      {
        failed := WaitSocket(null);
        if failed { return; }
        answer := AuthCallUnlocked(a);
      }
    }

    /** The part of runAuthAttemptUnlocked() for attempts that are one libssh2 call. */
    method RunSingleAttempt(ghost n: nat, a: Attempt) returns (e: Ending)
      requires Ready() && authenticatedWith.None? && NoneAwaited(n, log) && !a.kind.Agent? && !a.kind.Provider?
      modifies `session, `sftp, `held, `blocking, `authenticatedWith, `log, `guard, `outside, `openHandles, `staleCalls
      ensures Stepped(n, e) && Faithful(e, History(), RunSingle(TheWorld(), a, old(History())))
    {
      var denied := CheckAttemptAccess(a);
      if denied { return Finished(Failed); }
      var answer, failed := AttemptAnswer(n, a);
      if failed {
        DisconnectUnlocked(null);
        return Aborted;
      }
      if answer.Accepted? {
        authenticatedWith := Some(AuthenticatedWith(a.kind));
        e := Finished(LoggedIn(AuthenticatedWith(a.kind)));
      } else {
        e := Finished(Continue);
      }
    }

    /** runAuthAttemptUnlocked() */
    method RunAuthAttempt(ghost n: nat, a: Attempt) returns (e: Ending)
      requires Ready() && authenticatedWith.None? && NoneAwaited(n, log)
      modifies `session, `sftp, `held, `blocking, `authenticatedWith, `log, `guard, `outside, `openHandles, `staleCalls
      ensures Stepped(n, e) && Faithful(e, History(), RunAttempt(TheWorld(), a, old(History())))
      ensures a.kind.Agent? && !old(blocking) && WaitFails(old(outside).choices, 1) && HasIdentity(old(History())) ==>
        ClosedAwaitingAgent(n, log)
      decreases if a.kind.Provider? then 1 else 0, 4
    {
      match a.kind {
        case Agent => e := TryAgentAuth(n);
        case Provider => e := TryProviderAuth(n);
        case _ => e := RunSingleAttempt(n, a);
      }
    }

    /** Resolves a candidate and makes its attempts. */
    method ResolveAndRun(ghost n: nat, candidates: seq<Candidate>, i: nat) returns (e: Ending)
      requires Ready() && authenticatedWith.None? && NoneAwaited(n, log) && i < |candidates|
      modifies `session, `sftp, `held, `blocking, `authenticatedWith, `log, `guard, `outside, `openHandles, `staleCalls
      ensures Stepped(n, e)
      ensures var meaning := RunCandidates(TheWorld(), candidates, i, old(History()));
              if e == Finished(Continue) then meaning == RunCandidates(TheWorld(), candidates, i + 1, History())
              else Faithful(e, History(), meaning)
      decreases 1, 0
    {
      var w := TheWorld();
      var sub := ResolveProviderCandidate(candidates, i);
      if sub.None? { return Finished(Failed); }
      ghost var start := History();
      e := RunAuthPlan(n, sub.value);
      if e.Aborted? { CandidatesExtend(w, candidates, i + 1, RunPlan(w, sub.value, start).history); }
    }

    /** One candidate of tryProviderAuth(), which asks for a cancellation every hundred candidates. */
    method TryCandidate(ghost n: nat, candidates: seq<Candidate>, i: nat) returns (e: Ending)
      requires Ready() && authenticatedWith.None? && NoneAwaited(n, log) && i < |candidates|
      modifies `session, `sftp, `held, `blocking, `authenticatedWith, `log, `guard, `outside, `openHandles, `staleCalls
      ensures Stepped(n, e)
      ensures var meaning := RunCandidates(TheWorld(), candidates, i, old(History()));
              if e == Finished(Continue) then meaning == RunCandidates(TheWorld(), candidates, i + 1, History())
              else Faithful(e, History(), meaning)
      decreases 1, 1
    {
      CandidatesExtend(TheWorld(), candidates, i, History());
      if i % 100 == 0 {
        var cancelled := Interrupted();
        if cancelled {
          DisconnectUnlocked(null);
          return Aborted;
        }
      }
      e := ResolveAndRun(n, candidates, i);
    }

    /** The candidates of tryProviderAuth(), until an attempt logs in. */
    method TryCandidates(ghost n: nat, candidates: seq<Candidate>) returns (e: Ending)
      requires Ready() && authenticatedWith.None? && NoneAwaited(n, log)
      modifies `session, `sftp, `held, `blocking, `authenticatedWith, `log, `guard, `outside, `openHandles, `staleCalls
      ensures Stepped(n, e) && Faithful(e, History(), RunCandidates(TheWorld(), candidates, 0, old(History())))
      decreases 1, 2
    {
      ghost var meaning := RunCandidates(TheWorld(), candidates, 0, History());
      var i := 0;
      while i < |candidates|
        invariant InProgress(n) && i <= |candidates|
        invariant meaning == RunCandidates(TheWorld(), candidates, i, History())
        decreases |candidates| - i
      {
        e := TryCandidate(n, candidates, i);
        if e != Finished(Continue) { return; }
        i := i + 1;
      }
      e := Finished(Continue);
    }

    /** tryProviderAuth() */
    method TryProviderAuth(ghost n: nat) returns (e: Ending)
      requires Ready() && authenticatedWith.None? && NoneAwaited(n, log)
      modifies `session, `sftp, `held, `blocking, `authenticatedWith, `log, `guard, `outside, `openHandles, `staleCalls
      ensures Stepped(n, e) && Faithful(e, History(), RunProvider(TheWorld(), old(History())))
      decreases 1, 3
    {
      if !publickey { return Finished(Continue); }
      var list := GetProviderCandidates();
      if list.None? { return Finished(Failed); }
      e := TryCandidates(n, list.value);
    }

    /** The loops of sshConnectUnlocked() and of tryProviderAuth() over a plan, until an attempt logs in. */
    method RunAuthPlan(ghost n: nat, plan: seq<Attempt>) returns (e: Ending)
      requires Ready() && authenticatedWith.None? && NoneAwaited(n, log)
      modifies `session, `sftp, `held, `blocking, `authenticatedWith, `log, `guard, `outside, `openHandles, `staleCalls
      ensures Stepped(n, e) && Faithful(e, History(), RunPlan(TheWorld(), plan, old(History())))
      ensures plan != [] && plan[0].kind.Agent? && !old(blocking) && WaitFails(old(outside).choices, 1)
              && HasIdentity(old(History())) ==>
        ClosedAwaitingAgent(n, log)
      decreases if Markers(plan) == 0 then 0 else 1, 5
    {
      var w := TheWorld();
      ghost var meaning := RunPlan(w, plan, History());
      var i := 0;
      while i < |plan|
        invariant InProgress(n) && i <= |plan|
        invariant Markers(plan) == 0 ==> Markers(plan[i..]) == 0
        invariant meaning == RunPlan(w, plan[i..], History())
        invariant i == 0 ==> log == old(log) && outside == old(outside)
        invariant i > 0 ==> !(plan[0].kind.Agent? && !blocking && WaitFails(old(outside).choices, 1)
                              && HasIdentity(old(History())))
      {
        assert plan[i..][0] == plan[i] && plan[i..][1..] == plan[i + 1..];
        ghost var r := RunAttempt(w, plan[i], History());
        e := RunAuthAttempt(n, plan[i]);
        if e.Aborted? {
          PlanExtends(w, plan[i + 1..], r.history);
          return;
        }
        if !e.status.Continue? { return; }
        i := i + 1;
      }
      e := Finished(Continue);
    }

    /** The run of a plan for the list the server sends after the history h. */
    ghost predicate IsAuthRun(run: AuthRun, h: Log)
      reads `log
    {
      var ad := AuthPlan.Advertises(run.list);
      && run.list == env.authList(h)
      && AuthPlan.IsPlan(settings, memoryKeys, ad, run.plan)
      && Faithful(run.ending, History(),
                  RunPlan(World(env, ad.publickey, memoryKeys, settings.password), run.plan, h))
    }

    /** The handshake loop: repeats a call until it completes, or disconnects. */
    method Handshake() returns (failed: bool)
      requires Valid() && session && !sftp
      modifies `session, `sftp, `held, `blocking, `authenticatedWith, `log, `guard, `outside, `openHandles, `staleCalls
      ensures Valid() && Later(old(outside), outside) && staleCalls == old(staleCalls) && History() == old(History())
      ensures log == if failed then old(log) + [SessionClosed] else old(log)
      ensures failed ==> Disconnected() && !Undisturbed(old(outside), outside)
      ensures !failed ==> session && guard == old(guard) && !sftp && authenticatedWith == old(authenticatedWith)
                          && blocking == old(blocking)
      ensures !old(blocking) && Calm(old(outside).choices, 2) ==>
        !failed && outside.choices == Skip(old(outside).choices, 2)
    {
      ghost var calm := !blocking && Calm(outside.choices, 2);
      var again := Blocks();
      while again
        invariant Valid() && session && !sftp && guard == old(guard) && Later(old(outside), outside)
        invariant authenticatedWith == old(authenticatedWith) && blocking == old(blocking)
        invariant staleCalls == old(staleCalls) && log == old(log)
        invariant calm ==> !again && outside.choices == Rest(old(outside).choices)
        decreases |outside.choices|, again
      {
        failed := WaitSocket(null);
        if failed {
          DisconnectUnlocked(null);
          return;
        }
        again := Blocks();
      }
      failed := Fails();
      if failed { DisconnectUnlocked(null); }
    }

    /** The method list loop. */
    method FetchAuthList() returns (failed: bool, list: Option<string>)
      requires Ready()
      modifies `session, `sftp, `held, `blocking, `authenticatedWith, `log, `guard, `outside, `openHandles, `staleCalls
      ensures Valid() && Later(old(outside), outside) && staleCalls == old(staleCalls) && History() == old(History())
      ensures log == if failed then old(log) + [SessionClosed] else old(log)
      ensures failed ==> Disconnected() && outside.interruptions > old(outside).interruptions
      ensures !failed ==> Ready() && authenticatedWith == old(authenticatedWith) && list == env.authList(old(History()))
                          && blocking == old(blocking)
      ensures !old(blocking) && Calm(old(outside).choices, 1) ==>
        !failed && outside.choices == Rest(old(outside).choices)
    {
      failed := false;
      ghost var calm := !blocking && Calm(outside.choices, 1);
      var again;
      again, list := UserAuthList();
      while again
        invariant Ready() && Later(old(outside), outside) && staleCalls == old(staleCalls) && log == old(log)
        invariant authenticatedWith == old(authenticatedWith) && blocking == old(blocking)
        invariant !again ==> list == env.authList(History())
        invariant calm ==> !again && outside.choices == Rest(old(outside).choices)
        decreases |outside.choices|, again
      {
        failed := WaitSocket(null);
        if failed {
          DisconnectUnlocked(null);
          return;
        }
        again, list := UserAuthList();
      }
    }

    /** Builds the plan for the method list and runs it. */
    method RunListed(ghost n: nat, list: Option<string>) returns (e: Ending, ghost run: AuthRun)
      requires Ready() && authenticatedWith.None? && NoneAwaited(n, log) && list == env.authList(History())
      modifies `session, `sftp, `held, `blocking, `authenticatedWith, `publickey, `log, `guard, `outside, `openHandles,
               `staleCalls
      ensures Stepped(n, e) && IsAuthRun(run, old(History())) && run.ending == e
      ensures run.plan != [] && run.plan[0].kind.Agent? && !old(blocking) && WaitFails(old(outside).choices, 1)
              && HasIdentity(old(History())) ==>
        ClosedAwaitingAgent(n, log)
    {
      var plan := BuildAuthPlan(list);
      e := RunAuthPlan(n, plan);
      run := AuthRun(list, plan, e);
    }

    /** The part of sshConnectUnlocked() after the host key was accepted. */
    method Authenticate(ghost n: nat) returns (ok: bool, ghost run: Option<AuthRun>)
      requires Ready() && authenticatedWith.None? && !blocking && NoneAwaited(n, log)
      modifies `session, `sftp, `held, `blocking, `authenticatedWith, `publickey, `log, `guard, `outside, `openHandles,
               `staleCalls
      ensures Valid() && Later(old(outside), outside) && n <= |log| && !sftp
      ensures run.Some? ==> IsAuthRun(run.value, old(History()))
      ensures run.None? ==> !ok && Disconnected() && History() == old(History())
      ensures run.None? || run.value.ending.Aborted? ==> outside.interruptions > old(outside).interruptions
      ensures ok <==> LogsIn(run)
      ensures ok ==> Ready() && blocking && authenticatedWith == Some(run.value.ending.status.reported)
      ensures !ok && session ==> run.Some? && run.value.ending == Finished(Failed)
      ensures staleCalls == old(staleCalls) + Count(ClosedAwaitingAgent(n, log))
      ensures ok ==> NoneAwaited(n, log)
      ensures WaitFails(old(outside).choices, 2) && HasIdentity(old(History())) && run.Some? && run.value.plan != []
              && run.value.plan[0].kind.Agent? ==>
        ClosedAwaitingAgent(n, log)
      ensures Calm(old(outside).choices, 1) ==> run.Some?
    {
      ok, run := false, None;
      var failed, list := FetchAuthList();
      if failed { return; }
      var e; ghost var r;
      e, r := RunListed(n, list);
      run := Some(r);
      if e.Aborted? || e.status.Failed? { return; }
      if e.status.Continue? {
        DisconnectUnlocked(null);
        return;
      }
      blocking := true;
      ok := true;
    }

    /** The part of sshConnectUnlocked() up to the held descriptor of a connected socket. */
    method ConnectSocket(ghost n: nat) returns (ok: bool)
      requires Valid() && NoneAwaited(n, log)
      modifies `session, `sftp, `held, `blocking, `authenticatedWith, `log, `guard, `outside, `openHandles, `staleCalls
      ensures Valid() && Later(old(outside), outside) && History() == old(History()) && staleCalls == old(staleCalls)
      ensures NoneAwaited(n, log)
      ensures ok ==> !session && held && settings.user != ""
      ensures !ok ==> !session || session == old(session)
      ensures !ok ==> settings.user == "" || !Undisturbed(old(outside), outside)
      ensures !old(sftp) ==> !sftp
      ensures !old(session) && settings.user != "" && Calm(old(outside).choices, 3)
              ==> ok && outside.choices == Skip(old(outside).choices, 3)
    {
      ok := false;
      var failed := CheckConnectPreconditions();
      if failed { return; }
      failed := Fails();                // connectINET()
      if failed { return; }
      failed := HoldSessionDescriptor();
      if failed {
        DisconnectUnlocked(null);
      } else {
        ok := true;
      }
    }

    /** The part of sshConnectUnlocked() between the socket's connection and the authentication. */
    method StartSession(ghost n: nat) returns (ok: bool)
      requires Valid() && !session && held && NoneAwaited(n, log)
      modifies `session, `sftp, `held, `blocking, `authenticatedWith, `log, `guard, `outside, `openHandles, `staleCalls
      ensures Valid() && Later(old(outside), outside) && History() == old(History()) && staleCalls == old(staleCalls)
      ensures NoneAwaited(n, log)
      ensures ok ==> Ready() && authenticatedWith.None? && !blocking && env.hostKeyAccepted(old(History()))
      ensures !ok ==> Disconnected()
      ensures !ok ==> !env.hostKeyAccepted(old(History())) || !Undisturbed(old(outside), outside)
      ensures env.hostKeyAccepted(old(History())) && Calm(old(outside).choices, 3)
              ==> ok && outside.choices == Skip(old(outside).choices, 3)
    {
      ok := false;
      var failed := PrepareSession();
      if failed { return; }
      failed := Handshake();
      if failed { return; }
      failed := VerifyHostKey();
      ok := !failed;
    }

    /** The part of sshConnectUnlocked() before authentication. */
    method OpenSession(ghost n: nat) returns (ok: bool)
      requires Valid() && NoneAwaited(n, log)
      modifies `session, `sftp, `held, `blocking, `authenticatedWith, `log, `guard, `outside, `openHandles, `staleCalls
      ensures Valid() && Later(old(outside), outside) && History() == old(History()) && staleCalls == old(staleCalls)
      ensures NoneAwaited(n, log)
      ensures ok ==> Ready() && authenticatedWith.None? && !blocking
                     && settings.user != "" && env.hostKeyAccepted(old(History()))
      ensures !ok ==> !session || session == old(session)
      ensures !ok ==>
        settings.user == "" || !env.hostKeyAccepted(old(History())) || !Undisturbed(old(outside), outside)
      ensures !old(sftp) ==> !sftp
      ensures !old(session) && settings.user != "" && env.hostKeyAccepted(old(History()))
              && Calm(old(outside).choices, 6) ==>
        ok && outside.choices == Skip(old(outside).choices, 6)
    {
      ok := ConnectSocket(n);
      if ok { ok := StartSession(n); }
    }

    /** sshConnectUnlocked(); n is the length of the log when the connect was asked for. */
    method SshConnectUnlocked(ghost n: nat) returns (ok: bool, ghost run: Option<AuthRun>)
      requires Valid() && NoneAwaited(n, log)
      modifies `session, `sftp, `held, `blocking, `authenticatedWith, `publickey, `log, `guard, `outside, `openHandles,
               `staleCalls
      ensures Valid() && Later(old(outside), outside) && n <= |log|
      ensures old(pollOpInProgress) ==> !ok && unchanged(this)
      ensures run.Some? ==> IsAuthRun(run.value, old(History())) && CanAuthenticate(env, settings, old(History()))
      ensures run.None? ==> !ok && History() == old(History())
      ensures run.None? ==> old(pollOpInProgress) || !CanAuthenticate(env, settings, old(History()))
                            || !Undisturbed(old(outside), outside)
      ensures run.Some? && run.value.ending.Aborted? ==> outside.interruptions > old(outside).interruptions
      ensures ok <==> LogsIn(run)
      ensures ok ==> Ready() && blocking && authenticatedWith == Some(run.value.ending.status.reported)
      ensures staleCalls == old(staleCalls) + Count(ClosedAwaitingAgent(n, log))
      ensures ok ==> NoneAwaited(n, log)
      ensures !ok && session && !old(session) ==> run.Some? && run.value.ending == Finished(Failed)
      ensures !old(sftp) ==> !sftp
      ensures !old(session) && !old(pollOpInProgress) && CanAuthenticate(env, settings, old(History()))
              && WaitFails(old(outside).choices, 8) && HasIdentity(old(History())) ==>
        run.Some? && (run.value.plan != [] && run.value.plan[0].kind.Agent? ==> ClosedAwaitingAgent(n, log))
    {
      ok, run := false, None;
      if pollOpInProgress { return; }
      var prepared := OpenSession(n);
      if prepared { ok, run := Authenticate(n); }
    }
  }

  /** The handle of a blocking SFTP operation. */
  class QSftpHelper {
    const client: SFTPClient
    var handle: RemoteHandle?

    /** The helper's handle has not been freed. */
    ghost predicate Valid()
      reads this, client`openHandles
    {
      handle != null ==> handle in client.openHandles
    }

    constructor (client: SFTPClient)
      ensures this.client == client && handle == null && Valid()
    {
      this.client := client;
      handle := null;
    }

    method Assign(h: RemoteHandle?)
      requires handle == null && (h != null ==> h in client.openHandles)
      modifies this
      ensures handle == h && Valid()
    {
      handle := h;
    }

    /** closeIntern(): if the handle cannot be closed the connection is dropped, which frees it. */
    method CloseIntern() returns (again: bool)
      requires handle != null && Valid() && client.Valid()
      modifies this
      modifies client`session, client`sftp, client`held, client`blocking, client`authenticatedWith, client`log,
               client`guard, client`outside, client`openHandles, client`staleCalls
      ensures handle == null && client.Valid()
      ensures again ==> client.Disconnected() && !old(client.blocking)
                        && client.outside.failures > old(client.outside.failures)
      ensures !again ==> client.session == old(client.session) && client.sftp == old(client.sftp)
                         && client.blocking == old(client.blocking)
                         && client.openHandles == old(client.openHandles) - {old(handle)}
      ensures client.History() == old(client.History())
      ensures client.log == if again then old(client.log) + [SessionClosed] else old(client.log)
      ensures OnlyFailed(old(client.outside), client.outside) && client.staleCalls == old(client.staleCalls)
      decreases 1
    {
      again := client.CloseHandle(handle);
      while again
        invariant client.Valid() && client.session && client.sftp == old(client.sftp)
        invariant again ==> handle in client.openHandles && !client.blocking
        invariant client.openHandles == old(client.openHandles) - (if again then {} else {handle})
        invariant OnlyFailed(old(client.outside), client.outside) && client.staleCalls == old(client.staleCalls)
        invariant client.log == old(client.log) && client.blocking == old(client.blocking)
        invariant unchanged(this)
        decreases |client.outside.choices|, again
      {
        var failed := client.WaitInDisconnect();
        if failed {
          client.DisconnectUnlocked(null);
          break;
        }
        again := client.CloseHandle(handle);
      }
      handle := null;
    }

    /** waitSocket() */
    method WaitSocket() returns (failed: bool)
      requires Valid() && client.Valid() && client.session
      modifies this
      modifies client`session, client`sftp, client`held, client`blocking, client`authenticatedWith, client`log,
               client`guard, client`outside, client`openHandles, client`staleCalls
      ensures Valid() && client.Valid() && client.History() == old(client.History())
      ensures Waited(old(client.outside), client.outside, failed) && client.staleCalls == old(client.staleCalls)
      ensures failed ==> handle == null && client.Disconnected() && client.log == old(client.log) + [SessionClosed]
      ensures !failed ==> unchanged(this) && client.Untouched()
    {
      failed := client.WaitSocket(this);
    }

    /** err(): closes the handle, reports the error, and drops a connection that turns out to be closed. */
    method Err()
      requires Valid() && client.Valid()
      modifies this
      modifies client`session, client`sftp, client`held, client`blocking, client`authenticatedWith, client`log,
               client`guard, client`outside, client`openHandles, client`staleCalls
      ensures handle == null && Valid() && client.Valid() && client.History() == old(client.History())
      ensures Later(old(client.outside), client.outside) && client.staleCalls == old(client.staleCalls)
      ensures client.outside.interruptions == old(client.outside.interruptions)
      ensures client.log == if old(client.session) && !client.session then old(client.log) + [SessionClosed]
                            else old(client.log)
      ensures client.Disconnected() || (client.session == old(client.session) && client.sftp == old(client.sftp)
              && client.blocking == old(client.blocking)
              && client.openHandles
                 == if old(handle) == null then old(client.openHandles) else old(client.openHandles) - {old(handle)})
    {
      if handle != null {
        var _ := CloseIntern();
      }
      var _ := client.SessionError();
    }

    method PreDisconnect()
      requires Valid() && client.Valid()
      modifies this
      modifies client`session, client`sftp, client`held, client`blocking, client`authenticatedWith, client`log,
               client`guard, client`outside, client`openHandles, client`staleCalls
      ensures handle == null && client.Valid()
      ensures client.History() == old(client.History())
      ensures client.session ==> client.log == old(client.log) && old(client.session)
      ensures !client.session && old(client.session) ==> client.log == old(client.log) + [SessionClosed]
      ensures !old(client.session) ==> client.log == old(client.log)
      ensures OnlyFailed(old(client.outside), client.outside) && client.staleCalls == old(client.staleCalls)
      decreases 3
    {
      if handle != null {
        var _ := CloseIntern();
      }
    }
  }
}
