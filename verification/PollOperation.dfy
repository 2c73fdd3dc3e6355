/** The non-blocking file retrieval (src/SftpPollOperation.cpp): a state machine that is suspended whenever libssh2
    would block and continued by its caller.
 */
module PollOperation {
  import opened Ssh2Types
  import opened AuthSemantics
  import opened AuthGuard
  import opened Outside
  import opened SftpClient
  import AuthPlan

  /** SFTP_POLL_CANCEL_CHECK_INTERVAL */
  const CANCEL_CHECK_INTERVAL := 16

  datatype PollState =
    | Start | Connecting | Handshake | AuthList | Auth | SftpInit | RealPath | Stat | Open | Read | Close | Done
    | Closed

  function Rank(s: PollState): nat {
    match s
    case Start => 0 case Connecting => 1 case Handshake => 2 case AuthList => 3 case Auth => 4 case SftpInit => 5
    case RealPath => 6 case Stat => 7 case Open => 8 case Read => 9 case Close => 10 case Done => 11 case Closed => 12
  }

  predicate IsTerminal(s: PollState) {
    s.Done? || s.Closed?
  }

  class SftpPollOperation {
    const client: SFTPClient
    const path: string

    var state: PollState
    var connecting: bool                          // the TCP connection poll state exists
    var authQueue: seq<Attempt>
    var authAttemptChecked: bool
    var loggedIn: bool
    var providerCandidates: Option<seq<Candidate>>
    var providerIndex: nat
    var agent: Option<AgentConnection>
    var agentNeedIdentity: bool
    var reusedSession: bool
    var reconnectAttempted: bool
    var handle: RemoteHandle?
    var absPath: string
    var fileSize: nat
    var bytesRead: nat
    var readCalls: nat
    var data: array<byte>
    var restoreSessionBlocking: bool
    var clientReserved: bool

    ghost var planned: Option<AuthRun>            // Aborted stands for a run that has not ended
    ghost const hadSession: bool                  // the client's state when the operation was created: its session,
    ghost const hadBlocking: bool                 // the session's mode,
    ghost const start: Log                        // the history,
    ghost const stale: nat                        // the stale calls,
    ghost const before: Record                    // what the outside world had done,
    ghost const nameless: bool                    // and whether it had an SFTP session without a working directory

    // ---- what holds between two steps --------------------------------------------------------------------------

    /** The authentication part as AuthSemantics sees it. */
    function Pending(): Suspended
      reads this
    {
      Suspended(authQueue, authAttemptChecked,
        if agent.None? then None
        else Some(AgentCursor(
          if agentNeedIdentity || agent.value.selected == 0 then agent.value.selected else agent.value.selected - 1,
          agent.value.count)),
        if providerCandidates.None? then None else Some(CandidateCursor(providerCandidates.value, providerIndex)))
    }

    ghost function Meaning(): Outcome
      requires planned.Some?
      reads `planned
    {
      var run := planned.value;
      RunPlan(World(client.env, AuthPlan.Advertises(run.list).publickey, client.memoryKeys, client.settings.password),
              run.plan, start)
    }

    /** The plan the stage executes and the provider's candidates it is working on. */
    ghost predicate PlanInForce()
      reads this, client`session, client`sftp, client`held, client`authenticatedWith, client`log, client`guard,
            client`openHandles, client`publickey
    {
      && client.Ready() && client.authenticatedWith.None? && !loggedIn
      && planned.Some? && planned.value.ending.Aborted?
      && planned.value.list == client.env.authList(start) && Connectable()
      && AuthPlan.IsPlan(client.settings, client.memoryKeys, AuthPlan.Advertises(planned.value.list),
                         planned.value.plan)
      && client.publickey == AuthPlan.Advertises(planned.value.list).publickey
      && (providerCandidates.Some? ==> client.publickey && Markers(authQueue) > 0
                                       && providerIndex <= |providerCandidates.value|)
    }

    /** While authenticating, what was done and what is pending together mean the plan. */
    ghost predicate Authenticating()
      reads this, client`session, client`sftp, client`held, client`authenticatedWith, client`log, client`guard,
            client`openHandles, client`publickey
    {
      && PlanInForce()
      && Resume(client.TheWorld(), Pending(), client.History()) == Meaning()
      && (agent.Some? ==> authQueue != [] && authQueue[0].kind.Agent? && agent.value.selected <= agent.value.count
                          && (!agentNeedIdentity ==> agent.value.selected > 0))
      && (authAttemptChecked ==>
            && authQueue != [] && !authQueue[0].kind.Agent? && !authQueue[0].kind.Provider?
            && (authQueue[0].kind.PubkeyFile? ==> client.guard.armed == Some(authQueue[0])))
    }

    /** What a connection of the operation's own needs before it can authenticate. */
    ghost predicate Connectable() {
      client.settings.user != "" && client.env.hostKeyAccepted(start)
    }

    /** The plan's run so far is on record; without a plan nothing was completed. */
    ghost predicate RunRecorded()
      reads this, client`log
    {
      && (planned.None? || (client.IsAuthRun(planned.value, start) && Connectable()
                            && (hadSession ==> reconnectAttempted)))
      && (planned.None? ==> client.History() == start && !authAttemptChecked && !loggedIn)
    }

    /** Outside of authentication its resources are released and the plan's run is on record. */
    ghost predicate NotAuthenticating()
      reads this, client`log
    {
      agent.None? && providerCandidates.None? && RunRecorded()
    }

    /** The session belongs to the operation's current stage, in non-blocking mode. */
    ghost predicate SessionInUse()
      reads this, client`session, client`blocking
    {
      client.session && !client.blocking && restoreSessionBlocking && !connecting
    }

    /** The session of a connection the operation makes itself. */
    ghost predicate OwnSession()
      reads this, client`session, client`blocking, client`sftp, client`authenticatedWith
    {
      SessionInUse() && !client.sftp && client.authenticatedWith.None? && (hadSession ==> reconnectAttempted)
    }

    /** After authentication the plan has logged in, and the session reports how; only an adopted session needs none. */
    ghost predicate LoggedInByPlan()
      reads this, client`session, client`authenticatedWith
    {
      && (planned.Some? ==> planned.value.ending.Finished? && planned.value.ending.status.LoggedIn?)
      && (planned.None? ==> reusedSession && !reconnectAttempted)
      && ReportsPlan()
    }

    ghost predicate ReportsPlan()
      reads this, client`session, client`authenticatedWith
    {
      planned.Some? && planned.value.ending.Finished? && planned.value.ending.status.LoggedIn? && client.session
      ==> client.authenticatedWith == Some(planned.value.ending.status.reported)
    }

    ghost predicate NothingRead()
      reads this
    {
      handle == null && bytesRead == 0 && (absPath == "" || state.Stat? || state.Open?)
    }

    /** From the first read on, the data read so far is a prefix of the remote file. */
    ghost predicate DataRead()
      reads this, client`sftpPath, data
    {
      && absPath == AbsoluteFilename(client.sftpPath, path) && Named()
      && fileSize == data.Length == client.env.statSize(absPath)
      && bytesRead <= data.Length && bytesRead <= |client.env.files(absPath)|
      && data[..bytesRead] == client.env.files(absPath)[..bytesRead]
    }

    /** The open handle is live and stands behind the data read so far. */
    ghost predicate HandleLive()
      reads this, client`openHandles, if handle == null then {} else {handle}
    {
      && handle != null && handle in client.openHandles
      && handle.content == client.env.files(absPath) && handle.offset == bytesRead
    }

    /** The session may be left in non-blocking mode only if it was adopted in that mode. */
    ghost predicate ModeKept()
      reads this, client`session, client`blocking
    {
      client.session && !client.blocking ==> hadSession && !hadBlocking && !reconnectAttempted && planned.None?
    }

    /** Calls may have blocked and failed, but nothing was interrupted and no read failed or returned nothing. */
    ghost predicate Steady()
      reads client`outside
    {
      client.outside == before.(choices := client.outside.choices, failures := client.outside.failures,
                                losses := client.outside.losses, lost := client.outside.lost)
    }

    /** The same after the read loop, where one read has returned nothing exactly if the file ended early. */
    ghost predicate ReadToEnd()
      reads this, client`outside
    {
      client.outside == before.(choices := client.outside.choices, failures := client.outside.failures,
                                emptyReads := before.emptyReads + Count(bytesRead < fileSize),
                                losses := client.outside.losses, lost := client.outside.lost)
    }

    /** A read failed, and the report of the error dropped the connection. */
    ghost predicate DroppedInRead()
      reads client`outside
    {
      client.outside.readErrors > before.readErrors && client.outside.drops > before.drops
    }

    /** The failures that are no reason to end: those before the operation, or before it replaced its connection. */
    ghost function Borne(): nat
      reads `reconnectAttempted, client`outside
    {
      if reconnectAttempted then client.outside.lost else before.failures
    }

    /** What was adopted and replaced; a connection is replaced exactly if it was found lost, after a call on it has
        failed.  Only a file that is shorter than its size starves.
     */
    ghost predicate OnRecord()
      reads `reconnectAttempted, `reusedSession, `absPath, client`outside, client`sftpPath
    {
      && client.outside.losses == before.losses + Count(reconnectAttempted)
      && (client.outside.starved > before.starved ==> |client.env.files(absPath)| < client.env.statSize(absPath))
      && (reconnectAttempted ==> reusedSession && before.failures < client.outside.lost <= client.outside.failures)
      && (reusedSession ==> hadSession) && (nameless ==> hadSession) && Since(before, client.outside)
      && client.PathKnown()
    }

    /** The working directory is known, unless the operation adopted an SFTP session without one. */
    ghost predicate Named()
      reads `reconnectAttempted, client`sftpPath
    {
      client.sftpPath == "" <==> nameless && !reconnectAttempted
    }

    /** Why an operation may end without its file: something was interrupted or failed, the plan did not log in, or
        there was nobody to log in or no accepted host key for a connection of its own.  What failed before a dead
        connection was given up excuses nothing later.  Only an interruption ends a plan before it is finished.
     */
    ghost predicate Excused()
      reads this, client`outside
    {
      && (planned.Some? && planned.value.ending.Aborted? ==> Stopped(before, client.outside))
      && (|| Stopped(before, client.outside) || client.outside.failures > Borne()
          || client.outside.readErrors > before.readErrors
          || (planned.Some? && planned.value.ending.Finished? && !planned.value.ending.status.LoggedIn?)
          || (planned.None? && !Connectable() && (hadSession ==> reconnectAttempted)))
    }

    /** An operation that has ended holds nothing. */
    ghost predicate AllReleased()
      reads this, client`session, client`blocking
    {
      handle == null && !connecting && !restoreSessionBlocking && ModeKept()
    }

    /** What a stage needs, the decisions of the outside world aside. */
    ghost predicate InStage()
      reads this, client`session, client`sftp, client`held, client`authenticatedWith, client`log, client`guard,
            client`openHandles, client`publickey, client`blocking, client`sftpPath, data,
            if handle == null then {} else {handle}
    {
      && client.Valid() && bytesRead <= data.Length
      && (if state.Auth? then Authenticating() else NotAuthenticating())
      && match state
         case Start =>
           && !connecting && !restoreSessionBlocking && planned.None? && NothingRead()
           && (client.session ==> !reusedSession && hadSession && client.blocking == hadBlocking
                                  && nameless == (client.sftp && client.sftpPath == ""))
           && (!client.session ==> (hadSession ==> reconnectAttempted))
         case Connecting =>
           && connecting && !restoreSessionBlocking && planned.None? && NothingRead()
           && !client.session && (hadSession ==> reconnectAttempted) && client.settings.user != ""
         case Handshake => OwnSession() && NothingRead() && planned.None? && client.settings.user != ""
         case AuthList => OwnSession() && NothingRead() && planned.None? && client.Ready() && Connectable()
         case Auth => OwnSession() && NothingRead()
         case SftpInit =>
           SessionInUse() && !client.sftp && LoggedInByPlan() && NothingRead() && (nameless ==> reconnectAttempted)
         case RealPath =>
           && SessionInUse() && client.sftp && LoggedInByPlan() && NothingRead()
           && (nameless ==> reconnectAttempted) && client.sftpPath == ""
         case Stat =>
           && SessionInUse() && client.sftp && LoggedInByPlan() && NothingRead()
           && (absPath == "" || absPath == AbsoluteFilename(client.sftpPath, path)) && Named()
         case Open => SessionInUse() && client.sftp && LoggedInByPlan() && NothingRead() && DataRead()
         case Read | Close => SessionInUse() && client.sftp && LoggedInByPlan() && HandleLive() && DataRead()
         case Done => AllReleased() && client.sftp && LoggedInByPlan() && DataRead()
         case Closed => AllReleased() && ReportsPlan()
    }

    /** What the outside world may have done by the time of a stage. */
    ghost predicate OutsideOfStage()
      reads this, client`outside
    {
      if state.Closed? then Excused() else if state.Close? || state.Done? then ReadToEnd() else Steady()
    }

    ghost predicate Valid()
      reads this, client, data, if handle == null then {} else {handle}
    {
      && clientReserved == client.pollOpInProgress == !IsTerminal(state)
      && client.staleCalls == stale + Count(DroppedInRead())
      && OnRecord() && OutsideOfStage() && InStage()
    }

    /** Nothing is held any more. */
    ghost predicate Released()
      reads this
    {
      && agent.None? && providerCandidates.None? && !connecting && handle == null && !clientReserved
      && !restoreSessionBlocking
    }

    /** The steps a call of continuePoll() can still make: restarting is possible once. */
    function Remaining(): nat
      reads this
    {
      (if reconnectAttempted then 0 else 13) + 12 - Rank(state)
    }

    /** startPollGetFile() reserves the client and hands the reservation to the new operation. */
    constructor (client: SFTPClient, path: string)
      requires client.Valid() && client.PathKnown() && client.pollOpInProgress
      ensures Valid() && state.Start? && fresh(data) && !reconnectAttempted && planned.None?
      ensures this.client == client && this.path == path && start == client.History() && stale == client.staleCalls
              && hadSession == client.session && hadBlocking == client.blocking && before == client.outside
              && nameless == (client.sftp && client.sftpPath == "")
    {
      this.client, this.path := client, path;
      state, connecting, authQueue, authAttemptChecked, loggedIn := Start, false, [], false, false;
      providerCandidates, providerIndex, agent, agentNeedIdentity := None, 0, None, true;
      reusedSession, reconnectAttempted, handle, absPath := false, false, null, "";
      fileSize, bytesRead, readCalls := 0, 0, 0;
      data := new byte[0];
      restoreSessionBlocking, clientReserved := false, true;
      planned := None;
      start, stale, before := client.History(), client.staleCalls, client.outside;
      hadSession, hadBlocking := client.session, client.blocking;
      nameless := client.sftp && client.sftpPath == "";
    }

    // ---- releasing ---------------------------------------------------------------------------------------------

    method RestoreBlocking()
      modifies `restoreSessionBlocking, client`blocking
      ensures !restoreSessionBlocking
      ensures client.blocking == if old(restoreSessionBlocking) && client.session then true else old(client.blocking)
    {
      if restoreSessionBlocking {
        client.SetBlocking(true);
        restoreSessionBlocking := false;
      }
    }

    /** The handle loop of closeIntern(): true if the session must be dropped because the handle cannot be closed. */
    method CloseHandleNow() returns (drop: bool)
      requires client.Valid() && handle != null
      modifies `handle, client`outside, client`openHandles, client`staleCalls
      ensures client.Valid() && handle == null && OnlyFailed(old(client.outside), client.outside)
      ensures client.staleCalls
              == if old(handle) in old(client.openHandles) then old(client.staleCalls) else old(client.staleCalls) + 1
      ensures drop ==> client.session
    {
      drop := false;
      var again := client.CloseHandle(handle);
      while again
        invariant client.Valid() && (again ==> client.openHandles == old(client.openHandles) && client.session)
        invariant OnlyFailed(old(client.outside), client.outside)
        invariant client.staleCalls
              == if old(handle) in old(client.openHandles) then old(client.staleCalls) else old(client.staleCalls) + 1
        invariant again ==> handle in client.openHandles && handle == old(handle)
        decreases |client.outside.choices|, again
      {
        drop := client.WaitInDisconnect();
        if drop { break; }
        again := client.CloseHandle(handle);
      }
      handle := null;
    }

    method DropConnection()
      requires client.Valid()
      modifies client
      ensures client.Valid() && client.Disconnected() && client.History() == old(client.History())
      ensures OnlyFailed(old(client.outside), client.outside) && client.staleCalls == old(client.staleCalls)
      ensures unchanged(client`sftpPath, client`publickey, client`remote, client`pollOpInProgress)
    {
      if client.session {
        client.DisconnectUnlocked(null);
      } else {
        // there is only a socket to close, no session yet
        client.CloseTransport();
      }
    }

    /** The first part of closeIntern(): the agent goes before the session it was created from, and the handle before
        the connection.
     */
    method ReleaseResources() returns (drop: bool)
      requires client.Valid() && (agent.Some? ==> client.session)
      modifies `agent, `providerCandidates, `connecting, `handle
      modifies client`outside, client`openHandles, client`staleCalls
      ensures client.Valid() && agent.None? && providerCandidates.None? && !connecting && handle == null
      ensures OnlyFailed(old(client.outside), client.outside)
      ensures client.staleCalls == old(client.staleCalls)
              + if old(handle) == null || old(handle) in old(client.openHandles) then 0 else 1
      ensures old(handle) == null ==>
        !drop && client.outside == old(client.outside) && client.openHandles == old(client.openHandles)
    {
      if agent.Some? {
        client.AgentRelease();
        agent := None;
      }
      providerCandidates := None;
      connecting := false;
      drop := false;
      if handle != null {
        drop := CloseHandleNow();
      }
    }

    /** The last part of closeIntern(): the session's mode, the stage and the client's reservation. */
    method ReleaseClient()
      modifies `restoreSessionBlocking, `state, `clientReserved, client`blocking, client`pollOpInProgress
      ensures !restoreSessionBlocking && !clientReserved && state == if old(state).Done? then Done else Closed
      ensures client.blocking == if old(restoreSessionBlocking) && client.session then true else old(client.blocking)
      ensures client.pollOpInProgress == (old(client.pollOpInProgress) && !old(clientReserved))
    {
      RestoreBlocking();
      if !state.Done? { state := Closed; }
      if clientReserved {
        client.pollOpInProgress := false;
        clientReserved := false;
      }
    }

    /** What closeIntern() does once the resources are released. */
    method ReleaseConnection(drop: bool)
      requires client.Valid()
      modifies `restoreSessionBlocking, `state, `clientReserved, client
      ensures client.Valid() && !restoreSessionBlocking && !clientReserved
      ensures state == if old(state).Done? then Done else Closed
      ensures drop ==> client.Disconnected()
      ensures !drop ==>
        && unchanged(client`session, client`sftp, client`held, client`log, client`guard, client`outside)
        && unchanged(client`openHandles, client`authenticatedWith)
        && client.blocking == if old(restoreSessionBlocking) && client.session then true else old(client.blocking)
      ensures client.History() == old(client.History()) && OnlyFailed(old(client.outside), client.outside)
      ensures client.staleCalls == old(client.staleCalls)
      ensures client.pollOpInProgress == (old(client.pollOpInProgress) && !old(clientReserved))
      ensures unchanged(client`sftpPath, client`publickey, client`remote)
    {
      if drop { DropConnection(); }
      ReleaseClient();
    }

    /** closeIntern() */
    method CloseIntern(disconnect: bool)
      requires client.Valid() && (agent.Some? ==> client.session)
      modifies this, client
      ensures client.Valid() && Released()
      ensures state == if old(state).Done? then Done else Closed
      ensures disconnect ==> client.Disconnected()
      ensures client.session ==> old(client.session) && client.authenticatedWith == old(client.authenticatedWith)
      ensures client.session ==> client.blocking == if old(restoreSessionBlocking) then true else old(client.blocking)
      ensures client.staleCalls == old(client.staleCalls)
              + if old(handle) == null || old(handle) in old(client.openHandles) then 0 else 1
      ensures client.History() == old(client.History()) && OnlyFailed(old(client.outside), client.outside)
      ensures client.pollOpInProgress == (old(client.pollOpInProgress) && !old(clientReserved))
      ensures unchanged(`data, `bytesRead, `fileSize, `absPath, `reconnectAttempted, `reusedSession, `planned)
      ensures unchanged(`authQueue, `authAttemptChecked, `loggedIn)
      ensures unchanged(client`sftpPath, client`publickey, client`remote)
      ensures !disconnect && old(handle) == null ==>
        && client.session == old(client.session) && client.sftp == old(client.sftp) && client.held == old(client.held)
        && client.log == old(client.log) && client.openHandles == old(client.openHandles)
        && client.outside == old(client.outside) && client.guard == old(client.guard)
        && client.authenticatedWith == old(client.authenticatedWith)
        && client.blocking == if old(restoreSessionBlocking) && client.session then true else old(client.blocking)
    {
      var drop := ReleaseResources();
      ReleaseConnection(drop || disconnect);
    }

    /** What closeIntern() needs to leave a valid closed operation behind, a reason to end aside. */
    ghost predicate Closable()
      reads this, client, data
    {
      && client.Valid() && (agent.Some? ==> client.session) && clientReserved == client.pollOpInProgress
      && (restoreSessionBlocking || ModeKept()) && RunRecorded() && ReportsPlan() && OnRecord()
      && bytesRead <= data.Length && client.staleCalls == stale
      && (if handle == null then !DroppedInRead() else (handle in client.openHandles <==> !DroppedInRead()))
      && !state.Done?
    }

    lemma StageClosable()
      requires Valid() && !IsTerminal(state)
      ensures Closable()
    {
      assert handle == null || handle in client.openHandles;
      if state.Auth? {
        ResumeExtends(client.TheWorld(), Pending(), client.History());
      }
    }

    /** closeIntern() in a stage that has failed or is given up for a reason. */
    method Abandon(disconnect: bool)
      requires Closable() && Excused()
      modifies this, client
      ensures Valid() && state.Closed? && OnlyFailed(old(client.outside), client.outside)
      ensures client.staleCalls == old(client.staleCalls) + Count(DroppedInRead() && old(handle) != null)
      ensures disconnect ==> client.Disconnected()
      ensures unchanged(`data, `bytesRead, `fileSize, `absPath, `reconnectAttempted, `reusedSession, `planned)
      ensures unchanged(client`sftpPath, client`publickey, client`remote)
      ensures client.History() == old(client.History())
      ensures !disconnect && old(handle) == null ==>
        && client.outside == old(client.outside)
        && client.session == old(client.session) && client.sftp == old(client.sftp)
    {
      CloseIntern(disconnect);
    }

    /** abort(): an operation given up half-way takes its connection with it. */
    method Abort()
      requires IsTerminal(state) || Valid()
      modifies this, client
      ensures IsTerminal(old(state)) ==> unchanged(this) && unchanged(client)
      ensures !IsTerminal(old(state)) ==> Valid() && state.Closed? && client.Disconnected()
      ensures |client.outside.choices| <= |old(client.outside).choices|
      ensures unchanged(`data, `bytesRead, `fileSize, `absPath, `reconnectAttempted, `reusedSession, `planned)
      ensures unchanged(client`sftpPath, client`publickey, client`remote)
    {
      if IsTerminal(state) { return; }
      StageClosable();
      client.CallerGivesUp();
      Abandon(true);
    }

    /** An interruption is a reason to end whatever can be closed. */
    method InterruptClosable() returns (yes: bool)
      requires Closable()
      modifies client`outside
      ensures yes == First(old(client.outside).choices) && (yes ==> Closable() && Excused())
      ensures client.outside == old(client.outside).(choices := Rest(old(client.outside).choices),
                                                     interruptions := old(client.outside).interruptions + Count(yes))
    {
      yes := client.Interrupted();
    }

    /** A cancellation or a wait that cannot be set up is a reason to end. */
    method AskInterrupted() returns (yes: bool)
      requires Valid() && !IsTerminal(state)
      modifies client`outside
      ensures yes == First(old(client.outside).choices)
      ensures client.outside == old(client.outside).(choices := Rest(old(client.outside).choices),
                                                     interruptions := old(client.outside).interruptions + Count(yes))
      ensures if yes then Closable() && Excused() else Valid()
    {
      StageClosable();
      ghost var inStage := InStage();
      yes := InterruptClosable();
      assert InStage() == inStage;
    }

    method FailClosable() returns (yes: bool)
      requires Closable() && !state.Auth? && (planned.Some? ==> !planned.value.ending.Aborted?)
      modifies client`outside
      ensures yes == First(old(client.outside).choices) && (yes ==> Excused()) && Closable()
      ensures client.outside == old(client.outside).(choices := Rest(old(client.outside).choices),
                                                     failures := old(client.outside).failures + Count(yes))
    {
      yes := client.Fails();
    }

    /** A call that fails for good outside of authentication is a reason to end. */
    method AskFails() returns (yes: bool)
      requires Valid() && !IsTerminal(state) && !state.Auth?
      modifies client`outside
      ensures yes == First(old(client.outside).choices)
      ensures client.outside == old(client.outside).(choices := Rest(old(client.outside).choices),
                                                     failures := old(client.outside).failures + Count(yes))
      ensures Valid() && (yes ==> Closable() && Excused())
    {
      StageClosable();
      ghost var inStage := InStage();
      yes := FailClosable();
      assert InStage() == inStage;
    }

    /** A decision that is no reason to end. */
    method Asks() returns (yes: bool)
      requires Valid() && !IsTerminal(state)
      modifies client`outside
      ensures yes == First(old(client.outside).choices) && Valid()
      ensures client.outside == old(client.outside).(choices := Rest(old(client.outside).choices))
    {
      yes := client.Asks();
    }

    /** getPollInfo(): what to wait for; building it can fail, which ends the operation. */
    method GetPollInfo() returns (wait: bool)
      requires Valid() && !IsTerminal(state)
      modifies this, client
      ensures Valid() && Later(old(client.outside), client.outside)
      ensures wait ==> unchanged(this) && client.Untouched() && client.pollOpInProgress == old(client.pollOpInProgress)
      ensures wait ==> Passed(old(client.outside), client.outside)
      ensures !wait ==> state.Closed?
      ensures data == old(data) && reconnectAttempted == old(reconnectAttempted)
      ensures handle == null || handle == old(handle)
    {
      var failed := AskInterrupted();
      if failed { Abandon(true); }
      wait := !failed;
    }

    // ---- connecting --------------------------------------------------------------------------------------------

    method FailAdoption()
      requires Closable() && Excused() && state.Start? && hadSession
      modifies this, client
      ensures Valid() && state.Closed? && Later(old(client.outside), client.outside)
      ensures data == old(data) && handle == null && reconnectAttempted == old(reconnectAttempted)
    {
      reusedSession := true;
      Abandon(false);
    }

    /** The START stage with a session: adopts it. */
    method AdoptSession()
      requires Valid() && state.Start? && client.session
      modifies this, client
      ensures Valid() && Remaining() < old(Remaining()) && Later(old(client.outside), client.outside)
      ensures data == old(data) && handle == null && reconnectAttempted == old(reconnectAttempted)
      ensures old(client.sftp) && Calm(old(client.outside).choices, 1) ==>
        state.Stat? && reusedSession && client.outside.choices == Rest(old(client.outside).choices)
    {
      var failed := AskFails();         // setFdNonBlocking()
      if failed { FailAdoption(); } else { UseSession(); }
    }

    /** The client's session was adopted, and the stage does not show it yet. */
    ghost predicate Adopted()
      reads this, client, data
    {
      && client.Valid() && state.Start? && clientReserved && client.pollOpInProgress && OnRecord()
      && client.staleCalls == stale + Count(DroppedInRead()) && bytesRead <= data.Length
      && NotAuthenticating() && planned.None? && ReportsPlan() && reusedSession && !reconnectAttempted
      && Steady() && SessionInUse() && NothingRead() && nameless == (client.sftp && client.sftpPath == "")
    }

    /** Puts the adopted session in non-blocking mode. */
    method Adopt()
      requires Valid() && state.Start? && client.session
      modifies `reusedSession, `restoreSessionBlocking, client`blocking
      ensures Adopted()
    {
      reusedSession, restoreSessionBlocking := true, true;
      client.SetBlocking(false);
    }

    /** Adopts the session and goes to the stage it is ready for. */
    method UseSession()
      requires Valid() && state.Start? && client.session
      modifies `reusedSession, `restoreSessionBlocking, `state, client`blocking
      ensures Valid() && reusedSession && state == if client.sftp then Stat else SftpInit
    {
      Adopt();
      state := if client.sftp then Stat else SftpInit;
    }

    /** startConnect() */
    method StartTransport()
      requires Valid() && state.Start? && !client.session && client.settings.user != ""
      modifies this, client
      ensures Valid() && (state.Connecting? || state.Closed?) && Later(old(client.outside), client.outside)
      ensures data == old(data) && handle == null && reconnectAttempted == old(reconnectAttempted)
    {
      var failed := AskFails();
      if failed {
        Abandon(true);
      } else {
        connecting := true;
        state := Connecting;
      }
    }

    /** The START stage without a session: starts a connection. */
    method StartConnection()
      requires Valid() && state.Start? && !client.session
      modifies this, client
      ensures Valid() && Remaining() < old(Remaining()) && Later(old(client.outside), client.outside)
      ensures data == old(data) && handle == null && reconnectAttempted == old(reconnectAttempted)
    {
      StageClosable();
      var failed := client.CheckConnectPreconditions();
      if failed {
        Abandon(false);
        return;
      }
      StartTransport();
    }

    /** The START stage: adopts the client's session or starts a connection. */
    method HandleStart()
      requires Valid() && state.Start?
      modifies this, client
      ensures Valid() && Remaining() < old(Remaining()) && Later(old(client.outside), client.outside)
      ensures data == old(data) && handle == null && reconnectAttempted == old(reconnectAttempted)
      ensures old(client.session && client.sftp) && Calm(old(client.outside).choices, 1) ==>
        state.Stat? && reusedSession && client.outside.choices == Rest(old(client.outside).choices)
    {
      if client.session {
        AdoptSession();
      } else {
        StartConnection();
      }
    }

    /** The descriptor of the TCP connection is held. */
    ghost predicate ConnectionHeld()
      reads this, client, data
    {
      && Closable() && state.Connecting? && !connecting && !client.session && client.held && Steady() && clientReserved
      && planned.None? && NothingRead() && agent.None? && providerCandidates.None? && !restoreSessionBlocking
      && (hadSession ==> reconnectAttempted) && client.settings.user != ""
    }

    /** Once the TCP connection is made: holds its descriptor. */
    method HoldConnection() returns (failed: bool)
      requires Valid() && state.Connecting?
      modifies `connecting, client`held, client`outside
      ensures Later(old(client.outside), client.outside)
      ensures if failed then Closable() && Excused() && handle == null else ConnectionHeld()
    {
      connecting := false;
      failed := client.HoldSessionDescriptor();
      if !failed {
        failed := client.Fails();       // setFdNonBlocking()
      }
    }

    /** The session of the connection was created. */
    ghost predicate SessionCreated()
      reads this, client, data
    {
      && client.Valid() && client.session && !client.blocking && !client.sftp && client.authenticatedWith.None?
      && state.Connecting? && !connecting && clientReserved && client.pollOpInProgress
      && (hadSession ==> reconnectAttempted)
      && client.staleCalls == stale && planned.None? && NothingRead() && NotAuthenticating() && bytesRead <= data.Length
      && Steady() && OnRecord() && client.settings.user != ""
    }

    /** Creates the session. */
    method OpenSession() returns (failed: bool)
      requires ConnectionHeld()
      modifies client
      ensures Later(old(client.outside), client.outside) && client.pollOpInProgress
      ensures if failed then Closable() && Excused() else SessionCreated()
    {
      failed := client.PrepareSession();
    }

    /** The new session is used in non-blocking mode. */
    method EnterHandshake()
      requires SessionCreated()
      modifies `restoreSessionBlocking, `state
      ensures Valid() && state.Handshake?
    {
      restoreSessionBlocking, state := true, Handshake;
    }

    method CreateSession()
      requires ConnectionHeld()
      modifies this, client
      ensures Valid() && (state.Handshake? || state.Closed?) && Later(old(client.outside), client.outside)
      ensures data == old(data) && handle == null && reconnectAttempted == old(reconnectAttempted)
    {
      var failed := OpenSession();
      if failed { Abandon(false); } else { EnterHandshake(); }
    }

    /** The CONNECTING stage once the TCP connection is made: holds its descriptor and creates the session. */
    method EstablishSession()
      requires Valid() && state.Connecting?
      modifies this, client
      ensures Valid() && Remaining() < old(Remaining()) && Later(old(client.outside), client.outside)
      ensures data == old(data) && handle == null && reconnectAttempted == old(reconnectAttempted)
    {
      var failed := HoldConnection();
      if failed { Abandon(true); } else { CreateSession(); }
    }

    /** The connection attempt goes on, or its socket gets a session. */
    method ContinueConnecting() returns (wait: bool)
      requires Valid() && state.Connecting?
      modifies this, client
      ensures Valid() && Later(old(client.outside), client.outside)
      ensures wait ==> state.Connecting? && Fewer(old(client.outside), client.outside)
      ensures !wait ==> Remaining() < old(Remaining())
      ensures data == old(data) && handle == null && reconnectAttempted == old(reconnectAttempted)
    {
      wait := false;
      var again := Asks();
      if again {
        wait := GetPollInfo();
      } else {
        EstablishSession();
      }
    }

    method HandleConnecting() returns (wait: bool)
      requires Valid() && state.Connecting?
      modifies this, client
      ensures Valid() && Later(old(client.outside), client.outside)
      ensures wait ==> state.Connecting? && Fewer(old(client.outside), client.outside)
      ensures !wait ==> Remaining() < old(Remaining())
      ensures data == old(data) && handle == null && reconnectAttempted == old(reconnectAttempted)
    {
      wait := false;
      var failed := AskFails();
      if failed {
        Abandon(true);
        return;
      }
      wait := ContinueConnecting();
    }

    /** verifyHostKeyUnlocked() */
    method VerifyHostKey() returns (failed: bool)
      requires Valid() && state.Handshake?
      modifies client
      ensures Later(old(client.outside), client.outside) && client.pollOpInProgress == old(client.pollOpInProgress)
      ensures if failed then Closable() && Excused() else Valid() && client.Ready() && Connectable()
    {
      StageClosable();
      failed := client.VerifyHostKey();
    }

    /** The host key check after the handshake. */
    method CheckHostKey()
      requires Valid() && state.Handshake?
      modifies this, client
      ensures Valid() && Later(old(client.outside), client.outside) && (state.AuthList? || state.Closed?)
      ensures data == old(data) && handle == null && reconnectAttempted == old(reconnectAttempted)
    {
      var failed := VerifyHostKey();
      if failed {
        Abandon(false);
      } else {
        state := AuthList;
      }
    }

    /** A handshake that did not block has failed or is followed by the check of the host key. */
    method FinishHandshake()
      requires Valid() && state.Handshake?
      modifies this, client
      ensures Valid() && Later(old(client.outside), client.outside) && Remaining() < old(Remaining())
      ensures data == old(data) && handle == null && reconnectAttempted == old(reconnectAttempted)
    {
      var failed := AskFails();
      if failed {
        Abandon(true);
      } else {
        CheckHostKey();
      }
    }

    method HandleHandshake() returns (wait: bool)
      requires Valid() && state.Handshake?
      modifies this, client
      ensures Valid() && Later(old(client.outside), client.outside)
      ensures wait ==> state.Handshake? && Fewer(old(client.outside), client.outside)
      ensures !wait ==> Remaining() < old(Remaining())
      ensures data == old(data) && handle == null && reconnectAttempted == old(reconnectAttempted)
    {
      wait := false;
      var again := client.Blocks();
      if again {
        wait := GetPollInfo();
        return;
      }
      FinishHandshake();
    }

    /** Builds the plan both drivers build. */
    method BuildQueue(list: Option<string>)
      requires Valid() && state.AuthList?
      modifies `authQueue, client`publickey
      ensures Valid() && state.AuthList? && client.publickey == AuthPlan.Advertises(list).publickey
      ensures AuthPlan.IsPlan(client.settings, client.memoryKeys, AuthPlan.Advertises(list), authQueue)
    {
      authQueue := client.BuildAuthPlan(list);
    }

    /** The queue was filled with a plan and means it. */
    method EnterAuth(list: Option<string>)
      requires Valid() && state.AuthList? && list == client.env.authList(client.History())
      requires client.publickey == AuthPlan.Advertises(list).publickey
      requires AuthPlan.IsPlan(client.settings, client.memoryKeys, AuthPlan.Advertises(list), authQueue)
      requires Resume(client.TheWorld(), Fresh(authQueue, None), client.History())
               == RunPlan(client.TheWorld(), authQueue, client.History())
      modifies `planned, `state
      ensures Valid() && state.Auth?
    {
      planned, state := Some(AuthRun(list, authQueue, Aborted)), Auth;
    }

    /** Fills the queue with the plan. */
    method FillQueue(list: Option<string>)
      requires Valid() && state.AuthList? && list == client.env.authList(client.History())
      modifies `authQueue, `planned, `state, client`publickey
      ensures Valid() && state.Auth?
    {
      BuildQueue(list);
      ResumeFresh(client.TheWorld(), authQueue, client.History());
      EnterAuth(list);
    }

    /** One attempt to get the method list. */
    method CallAuthList() returns (again: bool, list: Option<string>)
      requires Valid() && state.AuthList?
      modifies client`outside
      ensures Valid() && Passed(old(client.outside), client.outside)
      ensures again ==> Fewer(old(client.outside), client.outside)
      ensures !again ==> list == client.env.authList(client.History())
    {
      again, list := client.UserAuthList();
    }

    method HandleAuthList() returns (wait: bool)
      requires Valid() && state.AuthList?
      modifies this, client
      ensures Valid() && Later(old(client.outside), client.outside)
      ensures wait ==> state.AuthList? && Fewer(old(client.outside), client.outside)
      ensures !wait ==> Remaining() < old(Remaining())
      ensures data == old(data) && handle == null && reconnectAttempted == old(reconnectAttempted)
    {
      wait := false;
      var again, list := CallAuthList();
      if again {
        wait := GetPollInfo();
      } else {
        FillQueue(list);
      }
    }

    // ---- authentication ----------------------------------------------------------------------------------------

    /** What Valid() says in this stage about everything but the attempts. */
    ghost predicate AuthStage()
      reads this, client, data
    {
      && state.Auth? && client.Valid() && clientReserved && client.pollOpInProgress
      && client.staleCalls == stale && OwnSession() && NothingRead() && Steady() && OnRecord()
    }

    /** The attempt at the front of the queue has come to nothing; what is behind it still means the plan. */
    ghost predicate FrontDone()
      reads this, client, data
    {
      && AuthStage() && PlanInForce() && authQueue != []
      && agent.None?
      && Resume(client.TheWorld(),
                Fresh(authQueue[1..], if authQueue[0].kind.Provider? then None else Pending().candidates),
                client.History()) == Meaning()
    }

    /** An attempt of this kind has logged in, which is what the plan means. */
    ghost predicate FrontAccepted(kind: Kind)
      reads this, client, data
    {
      && AuthStage() && PlanInForce()
      && Outcome(client.History(), LoggedIn(AuthenticatedWith(kind))) == Meaning()
    }

    method PopMarker()
      requires FrontDone() && authQueue[0].kind.Provider?
      modifies `authQueue, `authAttemptChecked, `providerCandidates
      ensures Valid() && state.Auth? && authQueue == old(authQueue)[1..] && providerCandidates.None?
    {
      providerCandidates, authQueue, authAttemptChecked := None, authQueue[1..], false;
    }

    method PopAttempt()
      requires FrontDone() && !authQueue[0].kind.Provider?
      modifies `authQueue, `authAttemptChecked
      ensures Valid() && state.Auth? && authQueue == old(authQueue)[1..]
    {
      authQueue, authAttemptChecked := authQueue[1..], false;
    }

    /** Takes the attempt off the queue. */
    method PopFront()
      requires FrontDone()
      modifies `authQueue, `authAttemptChecked, `providerCandidates
      ensures Valid() && state.Auth? && authQueue == old(authQueue)[1..] && Smaller(Work(), old(Work()))
      ensures providerCandidates == if old(authQueue)[0].kind.Provider? then None else old(providerCandidates)
    {
      if authQueue[0].kind.Provider? { PopMarker(); } else { PopAttempt(); }
    }

    method KeepAgent(found: AgentConnection)
      requires AuthStage() && PlanInForce() && agent.None? && !authAttemptChecked && authQueue != []
      requires authQueue[0].kind.Agent? && found.selected == 0
      requires Resume(client.TheWorld(), Pending().(agent := Some(AgentCursor(0, found.count))), client.History())
               == Meaning()
      modifies `agent, `agentNeedIdentity
      ensures Valid() && agent == Some(found) && agentNeedIdentity
    {
      agent, agentNeedIdentity := Some(found), true;
    }

    /** Connects to the agent. */
    method OpenAgent() returns (usable: bool)
      requires Valid() && state.Auth? && authQueue != [] && authQueue[0].kind.Agent? && agent.None?
      modifies `agent, `agentNeedIdentity, client`log, client`guard
      ensures usable ==> Valid() && agent.Some?
      ensures !usable ==> FrontDone()
    {
      var found := client.AgentOpen();
      usable := found.Some?;
      if usable { KeepAgent(found.value); }
    }

    method TakeIdentity()
      requires AtAgent() && agentNeedIdentity && agent.value.selected < agent.value.count
      modifies `agent, `agentNeedIdentity
      ensures AtAgent() && !agentNeedIdentity
      ensures agent == Some(old(agent.value).(selected := old(agent.value.selected) + 1))
    {
      agent := Some(agent.value.(selected := agent.value.selected + 1));
      agentNeedIdentity := false;
    }

    /** An agent without another identity is released. */
    method ReleaseExhausted()
      requires AtAgent() && agentNeedIdentity && agent.value.selected == agent.value.count
      modifies `agent, client`staleCalls
      ensures FrontDone() && agent.None?
    {
      client.AgentRelease();
      agent := None;
    }

    /** Selects the next identity; without one the agent is released. */
    method SelectIdentity() returns (none: bool)
      requires AtAgent() && agentNeedIdentity
      modifies `agent, `agentNeedIdentity, client`staleCalls
      ensures none ==> FrontDone() && agent.None?
      ensures !none ==> AtAgent() && !agentNeedIdentity && old(agent.value.selected) < old(agent.value.count)
                        && agent == Some(old(agent.value).(selected := old(agent.value.selected) + 1))
    {
      none := agent.value.selected == agent.value.count;
      if none { ReleaseExhausted(); } else { TakeIdentity(); }
    }

    /** The selected identity was rejected. */
    method RejectIdentity()
      requires AuthStage() && PlanInForce() && !authAttemptChecked && agent.Some? && !agentNeedIdentity
      requires authQueue != [] && authQueue[0].kind.Agent? && 0 < agent.value.selected <= agent.value.count
      requires Resume(client.TheWorld(),
                      Pending().(agent := Some(AgentCursor(agent.value.selected, agent.value.count))),
                      client.History()) == Meaning()
      modifies `agentNeedIdentity
      ensures Valid() && agentNeedIdentity
    {
      agentNeedIdentity := true;
    }

    /** Authenticates with the selected identity. */
    method CallAgent() returns (answer: Answer)
      requires Valid() && state.Auth? && agent.Some? && !agentNeedIdentity
      modifies `agentNeedIdentity, client`log, client`guard, client`outside
      ensures Passed(old(client.outside), client.outside)
      ensures answer.WouldBlock? ==> Valid() && Fewer(old(client.outside), client.outside)
      ensures answer.Accepted? ==> FrontAccepted(Agent)
      ensures answer.Rejected? ==> Valid() && agentNeedIdentity
    {
      answer := client.AgentUserAuth(agent.value);
      if answer.Rejected? { RejectIdentity(); }
    }

    /** What Valid() says while the identities of an agent are tried. */
    ghost predicate AtAgent()
      reads this, client, data
    {
      AuthStage() && Authenticating() && agent.Some? && bytesRead <= data.Length && !DroppedInRead()
    }

    /** Selects an identity if there is none; None if there is one to try. */
    method NeedIdentity() returns (step: Option<AgentStep>)
      requires AtAgent()
      modifies `agent, `agentNeedIdentity, client`outside, client`staleCalls
      ensures Later(old(client.outside), client.outside)
      ensures step.None? ==>
        && AtAgent() && !agentNeedIdentity && agent.value.count == old(agent.value.count)
        && agent.value.selected == old(agent.value.selected) + Count(old(agentNeedIdentity))
      ensures step == Some(AgentNoMore) ==> FrontDone()
      ensures step == Some(AgentError) ==> Closable() && Excused() && handle == null
      ensures step.Some? ==> step.value.AgentNoMore? || step.value.AgentError?
    {
      if !agentNeedIdentity { return None; }
      var cancelled := AskInterrupted();
      if cancelled { return Some(AgentError); }
      var none := SelectIdentity();
      step := if none then Some(AgentNoMore) else None;
    }

    /** What the call for the selected identity means for the loop; None if the identity was rejected. */
    method StepCall() returns (step: Option<AgentStep>)
      requires AtAgent() && !agentNeedIdentity
      modifies `agentNeedIdentity, client`log, client`guard, client`outside
      ensures Later(old(client.outside), client.outside)
      ensures step.None? ==> AtAgent() && agentNeedIdentity
      ensures step == Some(AgentBlocked) ==> AtAgent() && Fewer(old(client.outside), client.outside)
      ensures step == Some(AgentAccepted) ==> FrontAccepted(Agent)
      ensures step.Some? ==> step.value.AgentBlocked? || step.value.AgentAccepted?
    {
      var answer := CallAgent();
      match answer {
        case WouldBlock => step := Some(AgentBlocked);
        case Accepted => step := Some(AgentAccepted);
        case Rejected => step := None;
      }
    }

    /** One round of stepAgentAuth()'s loop; None if the identity was rejected. */
    method TryIdentity() returns (step: Option<AgentStep>)
      requires AtAgent()
      modifies `agent, `agentNeedIdentity
      modifies client`log, client`guard, client`outside, client`staleCalls
      ensures Later(old(client.outside), client.outside)
      ensures step.None? ==>
        && AtAgent() && agentNeedIdentity && agent.value.count == old(agent.value.count)
        && agent.value.selected == old(agent.value.selected) + Count(old(agentNeedIdentity))
      ensures step == Some(AgentBlocked) ==> AtAgent() && Fewer(old(client.outside), client.outside)
      ensures step == Some(AgentAccepted) ==> FrontAccepted(Agent)
      ensures step == Some(AgentNoMore) ==> FrontDone()
      ensures step == Some(AgentError) ==> Closable() && Excused() && handle == null
    {
      step := NeedIdentity();
      if step.None? { step := StepCall(); }
    }

    /** The loop of stepAgentAuth() over the identities of the agent. */
    method StepIdentities() returns (step: AgentStep)
      requires AtAgent()
      modifies `agent, `agentNeedIdentity
      modifies client`log, client`guard, client`outside, client`staleCalls
      ensures Later(old(client.outside), client.outside)
      ensures step.AgentBlocked? ==> AtAgent() && Fewer(old(client.outside), client.outside)
      ensures step.AgentAccepted? ==> FrontAccepted(Agent)
      ensures step.AgentNoMore? ==> FrontDone()
      ensures step.AgentError? ==> Closable() && Excused() && handle == null
    {
      while true
        invariant AtAgent() && Later(old(client.outside), client.outside)
        decreases agent.value.count - agent.value.selected, !agentNeedIdentity
      {
        var over := TryIdentity();
        if over.Some? { return over.value; }
      }
    }

    /** stepAgentAuth() */
    method StepAgentAuth() returns (step: AgentStep)
      requires Valid() && state.Auth? && authQueue != [] && authQueue[0].kind.Agent?
      modifies `agent, `agentNeedIdentity
      modifies client`log, client`guard, client`outside, client`staleCalls
      ensures Later(old(client.outside), client.outside)
      ensures step.AgentBlocked? ==> Valid() && Fewer(old(client.outside), client.outside)
      ensures step.AgentAccepted? ==> FrontAccepted(Agent)
      ensures step.AgentNoMore? ==> FrontDone()
      ensures step.AgentError? ==> Closable() && Excused() && handle == null
    {
      if agent.None? {
        var usable := OpenAgent();
        if !usable { return AgentNoMore; }
      }
      step := StepIdentities();
    }

    /** The candidates not yet resolved. */
    function Unresolved(): nat
      reads this
    {
      if providerCandidates.None? || |providerCandidates.value| < providerIndex then 0
      else |providerCandidates.value| - providerIndex
    }

    /** What was done so far is a failure the plan means. */
    ghost predicate PlanFailed()
      reads this, client, data
    {
      && state.Auth? && client.Valid() && clientReserved && client.pollOpInProgress && handle == null && OnRecord()
      && (agent.Some? ==> client.session) && (restoreSessionBlocking || ModeKept())
      && planned.Some? && planned.value.ending.Aborted?
      && planned.value.list == client.env.authList(start) && Connectable() && (hadSession ==> reconnectAttempted)
      && AuthPlan.IsPlan(client.settings, client.memoryKeys, AuthPlan.Advertises(planned.value.list),
                         planned.value.plan)
      && Outcome(client.History(), Failed) == Meaning()
      && bytesRead <= data.Length && client.staleCalls == stale && Steady()
    }

    method RecordFailure()
      requires PlanFailed()
      modifies `planned
      ensures Closable() && Excused() && handle == null
    {
      planned := Some(planned.value.(ending := Finished(Failed)));
    }

    /** The candidates that are behind the marker from now on. */
    method KeepCandidates(list: seq<Candidate>)
      requires AuthStage() && PlanInForce() && agent.None? && !authAttemptChecked && client.publickey
      requires authQueue != [] && authQueue[0].kind.Provider?
      requires Resume(client.TheWorld(), Fresh(authQueue, Some(CandidateCursor(list, 0))), client.History())
               == Meaning()
      modifies `providerCandidates, `providerIndex
      ensures Valid() && providerCandidates == Some(list) && providerIndex == 0
    {
      providerCandidates, providerIndex := Some(list), 0;
    }

    /** Asks the provider for its candidates. */
    method FetchCandidates() returns (failed: bool)
      requires Valid() && state.Auth? && authQueue != [] && authQueue[0].kind.Provider?
      requires providerCandidates.None? && client.publickey
      modifies `providerCandidates, `providerIndex, `planned, client`log, client`guard
      ensures failed ==> Closable() && Excused()
      ensures !failed ==> Valid() && providerCandidates.Some? && providerIndex == 0
    {
      ResumeMarker(client.TheWorld(), authQueue, client.History());
      var list := client.GetProviderCandidates();
      failed := list.None?;
      if failed {
        RecordFailure();
      } else {
        KeepCandidates(list.value);
      }
    }

    /** Resolves the next candidate, for whose attempts there is room in front of the queue. */
    method Resolve() returns (sub: Option<seq<Attempt>>)
      requires Valid() && state.Auth? && authQueue != [] && authQueue[0].kind.Provider?
      requires providerCandidates.Some? && providerIndex < |providerCandidates.value|
      modifies client`log, client`guard
      ensures sub.None? ==> PlanFailed()
      ensures sub.Some? ==>
        && AuthStage() && PlanInForce() && agent.None? && !authAttemptChecked && Markers(sub.value) == 0
        && Resume(client.TheWorld(),
                  Fresh(sub.value + authQueue, Some(CandidateCursor(providerCandidates.value, providerIndex + 1))),
                  client.History()) == Meaning()
    {
      ResumeResolve(client.TheWorld(), authQueue, providerCandidates.value, providerIndex, client.History());
      sub := client.ResolveProviderCandidate(providerCandidates.value, providerIndex);
    }

    /** Resolves the next candidate; its attempts go in front of the marker, which stays for the next one. */
    method ResolveNext() returns (failed: bool)
      requires Valid() && state.Auth? && authQueue != [] && authQueue[0].kind.Provider?
      requires providerCandidates.Some? && providerIndex < |providerCandidates.value|
      modifies `authQueue, `providerIndex, `planned, client`log, client`guard
      ensures failed ==> Closable() && Excused()
      ensures !failed ==> Valid() && Markers(authQueue) == Markers(old(authQueue)) && Unresolved() < old(Unresolved())
    {
      var sub := Resolve();
      failed := sub.None?;
      if failed {
        RecordFailure();
      } else {
        PutInFront(sub.value);
      }
    }

    method PutInFront(sub: seq<Attempt>)
      requires AuthStage() && PlanInForce() && agent.None? && !authAttemptChecked && Markers(sub) == 0
      requires providerCandidates.Some? && providerIndex < |providerCandidates.value|
      requires Resume(client.TheWorld(),
                      Fresh(sub + authQueue, Some(CandidateCursor(providerCandidates.value, providerIndex + 1))),
                      client.History()) == Meaning()
      modifies `authQueue, `providerIndex
      ensures Valid() && Markers(authQueue) == Markers(old(authQueue)) && Unresolved() < old(Unresolved())
    {
      MarkersConcat(sub, authQueue);
      providerIndex := providerIndex + 1;
      authQueue := sub + authQueue;
    }

    /** Resolves the next candidate, or drops the marker after the last. */
    method ExpandNext() returns (failed: bool)
      requires Valid() && state.Auth? && authQueue != [] && authQueue[0].kind.Provider? && providerCandidates.Some?
      modifies `authQueue, `authAttemptChecked, `providerCandidates, `providerIndex, `planned
      modifies client`log, client`guard, client`outside
      ensures failed ==> Closable() && Excused()
      ensures !failed ==> Valid() && Smaller(Work(), old(Work()))
      ensures Later(old(client.outside), client.outside)
    {
      if providerIndex >= |providerCandidates.value| {
        PopFront();
        return false;
      }
      failed := AskInterrupted();
      if !failed { failed := ResolveNext(); }
    }

    /** expandProviderAttempt() */
    method ExpandProviderAttempt() returns (failed: bool)
      requires Valid() && state.Auth? && authQueue != [] && authQueue[0].kind.Provider?
      modifies `authQueue, `authAttemptChecked, `providerCandidates, `providerIndex, `planned
      modifies client`log, client`guard, client`outside
      ensures failed ==> Closable() && Excused()
      ensures !failed ==> Valid()
      ensures Later(old(client.outside), client.outside)
      ensures !failed ==> Smaller(Work(), old(Work()))
    {
      if !client.publickey {
        ResumeMarker(client.TheWorld(), authQueue, client.History());
        PopFront();
        return false;
      }
      if providerCandidates.None? {
        failed := FetchCandidates();
        if failed { return; }
      }
      failed := ExpandNext();
    }

    /** The attempt at the front of the queue has passed its check. */
    method PassFront()
      requires AuthStage() && PlanInForce() && agent.None? && authQueue != []
      requires !authQueue[0].kind.Agent? && !authQueue[0].kind.Provider?
      requires authQueue[0].kind.PubkeyFile? ==> client.guard.armed == Some(authQueue[0])
      requires Resume(client.TheWorld(), Pending().(checked := true), client.History()) == Meaning()
      modifies `authAttemptChecked
      ensures Valid() && authAttemptChecked
    {
      authAttemptChecked := true;
    }

    /** The check of the key files, once for the attempt at the front of the queue. */
    method CheckFront() returns (denied: bool)
      requires Valid() && state.Auth? && authQueue != [] && !authQueue[0].kind.Agent? && !authQueue[0].kind.Provider?
      requires !authAttemptChecked
      modifies this, client
      ensures OnlyFailed(old(client.outside), client.outside)
      ensures denied ==> Closable() && Excused()
      ensures !denied ==> Valid() && state.Auth? && authAttemptChecked
      ensures unchanged(`authQueue, `providerCandidates, `providerIndex, `data, `handle, `reconnectAttempted)
    {
      denied := client.CheckAttemptAccess(authQueue[0]);
      if denied { RecordFailure(); } else { PassFront(); }
    }

    /** The authentication call for the attempt at the front of the queue. */
    method CallFront() returns (answer: Answer)
      requires Valid() && state.Auth? && authAttemptChecked
      modifies client`log, client`guard, client`outside
      ensures Passed(old(client.outside), client.outside)
      ensures answer.WouldBlock? ==> Valid() && Fewer(old(client.outside), client.outside)
      ensures answer.Accepted? ==> FrontAccepted(authQueue[0].kind)
      ensures answer.Rejected? ==> FrontDone()
    {
      answer := client.AuthCallUnlocked(authQueue[0]);
    }

    method ReleaseAgent(ghost kind: Kind)
      requires FrontAccepted(kind)
      modifies `agent, client`staleCalls
      ensures FrontAccepted(kind) && agent.None?
    {
      if agent.Some? {
        client.AgentRelease();
        agent := None;
      }
    }

    /** The login is on record; what is left is to leave the stage. */
    ghost predicate LoginRecorded(kind: Kind)
      reads this, client, data
    {
      && AuthStage() && client.Ready() && agent.None?
      && planned.Some? && planned.value.ending == Finished(LoggedIn(AuthenticatedWith(kind)))
      && client.IsAuthRun(planned.value, start)
    }

    method RecordLogin(kind: Kind)
      requires FrontAccepted(kind)
      modifies `agent, `planned, client`staleCalls
      ensures LoginRecorded(kind)
    {
      ReleaseAgent(kind);
      planned := Some(planned.value.(ending := Finished(LoggedIn(AuthenticatedWith(kind)))));
    }

    method ClearQueue(ghost kind: Kind)
      requires LoginRecorded(kind)
      modifies `loggedIn, `authQueue, `providerCandidates
      ensures LoginRecorded(kind) && loggedIn && authQueue == [] && providerCandidates.None?
    {
      loggedIn, authQueue, providerCandidates := true, [], None;
    }

    /** The end of the authentication stage after an attempt has logged in. */
    method FinishAuth(kind: Kind)
      requires FrontAccepted(kind)
      modifies `loggedIn, `agent, `authQueue, `providerCandidates, `planned, `state
      modifies client`authenticatedWith, client`staleCalls
      ensures Valid() && state.SftpInit?
    {
      RecordLogin(kind);
      ClearQueue(kind);
      client.authenticatedWith := Some(AuthenticatedWith(kind));
      state := SftpInit;
    }

    /** What the authentication loop still has to work off. */
    function Work(): AuthWork
      reads this
    {
      AuthWork(Markers(authQueue), if providerCandidates.None? then 1 else 0, Unresolved(), |authQueue|)
    }

    /** What handleAuth() makes of a step with the agent. */
    method SettleAgent(step: AgentStep) returns (round: Round)
      requires step.AgentBlocked? ==> Valid() && state.Auth?
      requires step.AgentError? ==> Closable() && Excused() && handle == null
      requires step.AgentAccepted? ==> FrontAccepted(Agent)
      requires step.AgentNoMore? ==> FrontDone()
      modifies this, client
      ensures Valid() && Later(old(client.outside), client.outside)
      ensures round.Again? ==> state.Auth? && step.AgentNoMore? && Smaller(Work(), old(Work()))
      ensures round.Waits? ==> state.Auth? && step.AgentBlocked?
      ensures round.Ended? ==> state.SftpInit? || state.Closed?
      ensures data == old(data) && handle == null && reconnectAttempted == old(reconnectAttempted)
    {
      match step {
        case AgentBlocked => round := WaitInAuth();
        case AgentError =>
          Abandon(true);
          round := Ended;
        case AgentAccepted =>
          FinishAuth(Agent);
          round := Ended;
        case AgentNoMore =>
          PopFront();
          round := Again;
      }
    }

    /** The same, with what it leaves as it is. */
    method StepAgent() returns (step: AgentStep)
      requires Valid() && state.Auth? && authQueue != [] && authQueue[0].kind.Agent?
      modifies this, client
      ensures Later(old(client.outside), client.outside)
      ensures step.AgentBlocked? ==> Valid() && state.Auth? && Fewer(old(client.outside), client.outside)
      ensures step.AgentAccepted? ==> FrontAccepted(Agent)
      ensures step.AgentNoMore? ==> FrontDone()
      ensures step.AgentError? ==> Closable() && Excused() && handle == null
      ensures Work() == old(Work()) && unchanged(`data, `reconnectAttempted)
    {
      step := StepAgentAuth();
    }

    /** One round of the authentication loop for an AGENT attempt. */
    method RoundAgent() returns (round: Round)
      requires Valid() && state.Auth? && authQueue != [] && authQueue[0].kind.Agent?
      modifies this, client
      ensures RoundDone(round, old(client.outside))
      ensures round.Again? ==> Smaller(Work(), old(Work()))
      ensures data == old(data) && handle == null && reconnectAttempted == old(reconnectAttempted)
    {
      var step := StepAgent();
      round := SettleAgent(step);
    }

    method WaitInAuth() returns (round: Round)
      requires Valid() && state.Auth?
      modifies this, client
      ensures Valid() && Later(old(client.outside), client.outside) && !round.Again?
      ensures round.Waits? ==> state.Auth? && Passed(old(client.outside), client.outside)
      ensures round.Ended? ==> state.Closed?
      ensures data == old(data) && handle == null && reconnectAttempted == old(reconnectAttempted)
    {
      var wait := GetPollInfo();
      round := if wait then Waits else Ended;
    }

    /** The call of a round once the attempt's key files were checked. */
    method RoundChecked() returns (round: Round)
      requires Valid() && state.Auth? && authAttemptChecked
      modifies this, client
      ensures RoundDone(round, old(client.outside))
      ensures round.Again? ==> Smaller(Work(), old(Work()))
      ensures data == old(data) && handle == null && reconnectAttempted == old(reconnectAttempted)
    {
      var answer := CallFront();
      match answer {
        case WouldBlock => round := WaitInAuth();
        case Accepted =>
          FinishAuth(authQueue[0].kind);
          round := Ended;
        case Rejected =>
          PopFront();
          round := Again;
      }
    }

    /** The check before the first call of an attempt; a denial ends the operation. */
    method PassCheck() returns (denied: bool)
      requires Valid() && state.Auth? && authQueue != [] && !authQueue[0].kind.Agent? && !authQueue[0].kind.Provider?
      modifies this, client
      ensures Valid() && Later(old(client.outside), client.outside)
      ensures if denied then state.Closed? else state.Auth? && authAttemptChecked && Work() == old(Work())
      ensures data == old(data) && handle == null && reconnectAttempted == old(reconnectAttempted)
    {
      denied := false;
      if !authAttemptChecked {
        denied := CheckFront();
        if denied { Abandon(false); }
      }
    }

    /** One round of the authentication loop for an attempt that is a single call. */
    method RoundSingle() returns (round: Round)
      requires Valid() && state.Auth? && authQueue != [] && !authQueue[0].kind.Agent? && !authQueue[0].kind.Provider?
      modifies this, client
      ensures RoundDone(round, old(client.outside))
      ensures round.Again? ==> Smaller(Work(), old(Work()))
      ensures data == old(data) && handle == null && reconnectAttempted == old(reconnectAttempted)
    {
      var denied := PassCheck();
      if denied { return Ended; }
      round := RoundChecked();
    }

    /** How a round of the authentication loop ends. */
    ghost predicate RoundDone(round: Round, earlier: Record)
      reads this, client, data, if handle == null then {} else {handle}
    {
      && Valid() && Later(earlier, client.outside)
      && (round.Again? ==> state.Auth?)
      && (round.Waits? ==> state.Auth? && Fewer(earlier, client.outside))
      && (round.Ended? ==> state.SftpInit? || state.Closed?)
    }

    /** One round of the authentication loop for a PROVIDER marker. */
    method RoundProvider() returns (round: Round)
      requires Valid() && state.Auth? && authQueue != [] && authQueue[0].kind.Provider?
      modifies this, client
      ensures RoundDone(round, old(client.outside))
      ensures round.Again? ==> Smaller(Work(), old(Work()))
      ensures data == old(data) && handle == null && reconnectAttempted == old(reconnectAttempted)
    {
      var failed := ExpandProviderAttempt();
      if failed { Abandon(true); }
      round := if failed then Ended else Again;
    }

    /** One round of the authentication loop. */
    method NextRound() returns (round: Round)
      requires Valid() && state.Auth? && authQueue != []
      modifies this, client
      ensures RoundDone(round, old(client.outside))
      ensures round.Again? ==> Smaller(Work(), old(Work()))
      ensures data == old(data) && handle == null && reconnectAttempted == old(reconnectAttempted)
    {
      match authQueue[0].kind
      case Provider => round := RoundProvider();
      case Agent => round := RoundAgent();
      case _ => round := RoundSingle();
    }

    /** No attempt has logged in. */
    method FailAuth()
      requires Valid() && state.Auth? && authQueue == []
      modifies this, client
      ensures Valid() && state.Closed? && Later(old(client.outside), client.outside)
      ensures data == old(data) && handle == null && reconnectAttempted == old(reconnectAttempted)
    {
      StageClosable();
      planned := Some(planned.value.(ending := Finished(Continue)));
      Abandon(true);
    }

    /** The queue is worked off until an attempt logs in, blocks or fails. */
    method WorkOff() returns (round: Round)
      requires Valid() && state.Auth?
      modifies this, client
      ensures RoundDone(round, old(client.outside)) && (round.Again? ==> authQueue == [])
      ensures data == old(data) && handle == null && reconnectAttempted == old(reconnectAttempted)
    {
      round := Again;
      while round.Again? && authQueue != []
        invariant RoundDone(round, old(client.outside))
        invariant data == old(data) && handle == null && reconnectAttempted == old(reconnectAttempted)
        decreases round.Again?, Work().markers, Work().unfetched, Work().unresolved, Work().attempts
      {
        round := NextRound();
      }
    }

    /** handleAuth(): the queue is worked off until an attempt logs in, blocks or fails. */
    method HandleAuth() returns (wait: bool)
      requires Valid() && state.Auth?
      modifies this, client
      ensures Valid() && Later(old(client.outside), client.outside)
      ensures wait ==> state.Auth? && Fewer(old(client.outside), client.outside)
      ensures !wait ==> Remaining() < old(Remaining())
      ensures data == old(data) && handle == null && reconnectAttempted == old(reconnectAttempted)
    {
      var round := WorkOff();
      if round.Again? { FailAuth(); }
      wait := round.Waits?;
    }

    // ---- the SFTP stages ---------------------------------------------------------------------------------------

    /** An adopted session was found lost; it is not replaced yet. */
    ghost predicate FoundLost()
      reads this, client, data
    {
      && client.Valid() && clientReserved && client.pollOpInProgress && reusedSession && hadSession
      && !reconnectAttempted && Since(before, client.outside) && client.PathKnown()
      && client.outside.losses == before.losses + 1 && client.outside.failures > before.failures
      && client.staleCalls == stale && bytesRead <= data.Length && NotAuthenticating() && planned.None?
      && Steady() && !connecting && handle == null
    }

    /** The dead connection goes, and with it the mode that would have to be restored. */
    method GiveUpConnection()
      requires FoundLost()
      modifies `restoreSessionBlocking, client
      ensures FoundLost() && Later(old(client.outside), client.outside)
      ensures !client.session && !restoreSessionBlocking && client.outside.lost == client.outside.failures
    {
      client.DisconnectUnlocked(null);
      client.StartAfresh();
      restoreSessionBlocking := false;
    }

    /** Everything learnt about the file is forgotten. */
    method ForgetFile()
      requires FoundLost()
      modifies `absPath, `fileSize, `bytesRead, `readCalls, `data
      ensures FoundLost() && absPath == "" && bytesRead == 0 && fresh(data)
    {
      absPath, fileSize, bytesRead, readCalls := "", 0, 0, 0;
      data := new byte[0];
    }

    /** The operation starts over. */
    method StartOver()
      requires FoundLost() && absPath == "" && bytesRead == 0 && !client.session && !restoreSessionBlocking
      requires client.outside.lost == client.outside.failures
      modifies `reconnectAttempted, `state
      ensures Valid() && state.Start? && reconnectAttempted && client.outside.failures == Borne()
    {
      reconnectAttempted, state := true, Start;
    }

    /** Whether the adopted session that has just failed is found lost. */
    method AskLost() returns (lost: bool)
      requires Valid() && (state.SftpInit? || state.Stat?) && client.outside.failures > Borne()
      requires reusedSession && !reconnectAttempted
      modifies client`outside
      ensures lost == First(old(client.outside).choices) && (if lost then FoundLost() else Valid())
      ensures client.outside == old(client.outside).(choices := Rest(old(client.outside).choices),
                                                     losses := old(client.outside).losses + Count(lost))
    {
      lost := client.ConnectionLost();
    }

    /** retryAfterConnectionLoss(): an adopted session may turn out to be dead when it is first used; it is replaced
        exactly then, and once.
     */
    method RetryAfterConnectionLoss() returns (restarted: bool)
      requires Valid() && (state.SftpInit? || state.Stat?) && client.outside.failures > Borne()
      modifies this, client
      ensures Valid() && Later(old(client.outside), client.outside)
      ensures restarted <==> old(reusedSession && !reconnectAttempted && First(client.outside.choices))
      ensures restarted ==> state.Start? && !client.session && Remaining() < old(Remaining()) && fresh(data)
      ensures restarted ==> client.outside.failures == Borne() && reconnectAttempted && old(bytesRead == 0)
      ensures restarted ==> |client.outside.choices| <= |Rest(old(client.outside).choices)|
      ensures !restarted ==> unchanged(this) && client.Untouched() && Passed(old(client.outside), client.outside)
    {
      if !reusedSession || reconnectAttempted { return false; }
      restarted := AskLost();
      if restarted {
        GiveUpConnection();
        ForgetFile();
        StartOver();
      }
    }

    /** Reports a session error, which may drop the connection, and ends the operation. */
    method FailSession(disconnect: bool)
      requires Valid() && !IsTerminal(state) && !state.Auth? && handle == null
      requires client.outside.failures > Borne()
      modifies this, client
      ensures Valid() && state.Closed? && Later(old(client.outside), client.outside)
      ensures data == old(data) && handle == null && reconnectAttempted == old(reconnectAttempted)
    {
      StageClosable();
      var _ := client.SessionError();
      Abandon(disconnect);
    }

    /** The SFTP session of the stage was started. */
    ghost predicate SftpStarted()
      reads this, client, data
    {
      && state.SftpInit? && client.Valid() && client.sftp && clientReserved && client.pollOpInProgress && OnRecord()
      && client.staleCalls == stale && bytesRead <= data.Length && NotAuthenticating()
      && Steady() && SessionInUse() && LoggedInByPlan() && NothingRead() && (nameless ==> reconnectAttempted)
    }

    method EnterSftp()
      requires SftpStarted()
      modifies `state
      ensures Valid() && state == if client.sftpPath == "" then RealPath else Stat
    {
      state := if client.sftpPath == "" then RealPath else Stat;
    }

    /** One attempt to start the SFTP session. */
    method CallSftpInit() returns (again: bool)
      requires Valid() && state.SftpInit?
      modifies `state, client`outside, client`sftp
      ensures Valid() && (state.SftpInit? || ((state.RealPath? || state.Stat?) && !again))
      ensures state.SftpInit? && !again ==> client.outside.failures > Borne()
      ensures FailsAndYes(old(client.outside).choices) ==>
        state.SftpInit? && !again && client.outside.choices == Skip(old(client.outside).choices, 2)
      ensures Later(old(client.outside), client.outside) && (again ==> Fewer(old(client.outside), client.outside))
    {
      var ok;
      again, ok := client.SftpInit();
      if ok { EnterSftp(); }
    }

    /** The operation has just started over; choices were the decisions left when the session was found lost. */
    predicate Restarted(choices: seq<bool>)
      reads `state, `reconnectAttempted, client`outside
    {
      && state.Start? && reconnectAttempted && client.outside.failures == client.outside.lost
      && |client.outside.choices| <= |choices|
    }

    /** An adopted session that has not been replaced. */
    predicate Replaceable()
      reads `reusedSession, `reconnectAttempted
    {
      reusedSession && !reconnectAttempted
    }

    /** The session could not be started: a dead adopted connection is replaced once. */
    method FailSftpInit()
      requires Valid() && state.SftpInit? && client.outside.failures > Borne()
      modifies this, client
      ensures Valid() && Later(old(client.outside), client.outside) && Remaining() < old(Remaining())
      ensures if old(Replaceable() && First(client.outside.choices)) then Restarted(Rest(old(client.outside).choices))
              else state.Closed? && reconnectAttempted == old(reconnectAttempted)
      ensures (data == old(data) || fresh(data)) && handle == null && (old(reconnectAttempted) ==> reconnectAttempted)
    {
      var restarted := RetryAfterConnectionLoss();
      if !restarted { FailSession(true); }
    }

    method HandleSftpInit() returns (wait: bool)
      requires Valid() && state.SftpInit?
      modifies this, client
      ensures old(Replaceable()) && FailsAndYes(old(client.outside).choices) ==>
        Restarted(Skip(old(client.outside).choices, 3))
      ensures Valid() && Later(old(client.outside), client.outside)
      ensures wait ==> state.SftpInit? && Fewer(old(client.outside), client.outside)
      ensures !wait ==> Remaining() < old(Remaining())
      ensures (data == old(data) || fresh(data)) && handle == null && (old(reconnectAttempted) ==> reconnectAttempted)
    {
      wait := false;
      var again := CallSftpInit();
      if again {
        wait := GetPollInfo();
      } else if state.SftpInit? {
        FailSftpInit();
      }
    }

    method KeepPath(cwd: string)
      requires Valid() && state.RealPath? && cwd == WorkingDirectory(client.env)
      modifies `state, client`sftpPath
      ensures Valid() && state.Stat? && client.sftpPath == cwd
    {
      client.sftpPath := cwd;
      state := Stat;
    }

    /** One attempt to get the working directory. */
    method CallRealPath() returns (again: bool)
      requires Valid() && state.RealPath?
      modifies `state, client`outside, client`sftpPath
      ensures Valid() && (state.RealPath? || (state.Stat? && !again))
      ensures state.RealPath? && !again ==> client.outside.failures > Borne()
      ensures Later(old(client.outside), client.outside) && (again ==> Fewer(old(client.outside), client.outside))
    {
      var found;
      again, found := client.RealPath();
      if !again && found.Some? { KeepPath(found.value); }
    }

    method HandleRealPath() returns (wait: bool)
      requires Valid() && state.RealPath?
      modifies this, client
      ensures Valid() && Later(old(client.outside), client.outside)
      ensures wait ==> state.RealPath? && Fewer(old(client.outside), client.outside)
      ensures !wait ==> Remaining() < old(Remaining())
      ensures data == old(data) && handle == null && reconnectAttempted == old(reconnectAttempted)
    {
      wait := false;
      var again := CallRealPath();
      if again {
        wait := GetPollInfo();
      } else if state.RealPath? {
        FailSession(true);
      }
    }

    /** A stat error: a dead adopted session is replaced once, any other failure ends the operation. */
    method FailStat()
      requires Valid() && state.Stat? && client.outside.failures > Borne()
      modifies this, client
      ensures Valid() && Later(old(client.outside), client.outside) && Remaining() < old(Remaining())
      ensures if old(Replaceable() && First(client.outside.choices)) then Restarted(Rest(old(client.outside).choices))
              else state.Closed? && reconnectAttempted == old(reconnectAttempted)
      ensures (data == old(data) || fresh(data)) && handle == null && (old(reconnectAttempted) ==> reconnectAttempted)
    {
      var restarted := RetryAfterConnectionLoss();
      if !restarted { FailSession(false); }
    }

    method Allocate(size: nat)
      requires Valid() && state.Stat?
      modifies `fileSize, `data
      ensures Valid() && fresh(data) && fileSize == data.Length == size
    {
      fileSize := size;
      data := new byte[fileSize];
    }

    /** The size is known: the buffer is allocated. */
    method PrepareData(size: nat)
      requires Valid() && state.Stat? && absPath != "" && size == client.env.statSize(absPath)
      modifies `fileSize, `data, `state
      ensures Valid() && state.Open? && fresh(data)
    {
      Allocate(size);
      state := Open;
    }

    /** Resolves the path once. */
    method ResolvePath()
      requires Valid() && state.Stat?
      modifies `absPath
      ensures Valid() && absPath == AbsoluteFilename(client.sftpPath, path) && absPath != ""
    {
      if absPath == "" { absPath := AbsoluteFilename(client.sftpPath, path); }
    }

    /** One attempt to get the file's attributes. */
    method CallStat() returns (again: bool)
      requires Valid() && state.Stat? && absPath != ""
      modifies `fileSize, `data, `state, client`outside
      ensures Valid() && (state.Stat? || (state.Open? && !again)) && (data == old(data) || fresh(data))
      ensures state.Stat? && !again ==> client.outside.failures > Borne()
      ensures FailsAndYes(old(client.outside).choices) ==>
        state.Stat? && !again && client.outside.choices == Skip(old(client.outside).choices, 2)
      ensures Calm(old(client.outside).choices, 2) ==>
        state.Open? && client.outside.choices == Skip(old(client.outside).choices, 2)
      ensures Later(old(client.outside), client.outside) && (again ==> Fewer(old(client.outside), client.outside))
    {
      var size;
      again, size := client.Stat(absPath);
      if !again && size.Some? { PrepareData(size.value); }
    }

    /** The stage once the path is known. */
    method AskSize() returns (wait: bool)
      requires Valid() && state.Stat? && absPath != ""
      modifies this, client
      ensures old(Replaceable()) && FailsAndYes(old(client.outside).choices) ==>
        Restarted(Skip(old(client.outside).choices, 3))
      ensures Valid() && Later(old(client.outside), client.outside)
      ensures wait ==> state.Stat? && Fewer(old(client.outside), client.outside)
      ensures !wait ==> Remaining() < old(Remaining())
      ensures (data == old(data) || fresh(data)) && handle == null && (old(reconnectAttempted) ==> reconnectAttempted)
      ensures Calm(old(client.outside).choices, 2) ==>
        state.Open? && client.outside.choices == Skip(old(client.outside).choices, 2)
    {
      wait := false;
      var again := CallStat();
      if again {
        wait := GetPollInfo();
      } else if state.Stat? {
        FailStat();
      }
    }

    method HandleStat() returns (wait: bool)
      requires Valid() && state.Stat?
      modifies this, client
      ensures old(Replaceable()) && FailsAndYes(old(client.outside).choices) ==>
        Restarted(Skip(old(client.outside).choices, 3))
      ensures Valid() && Later(old(client.outside), client.outside)
      ensures wait ==> state.Stat? && Fewer(old(client.outside), client.outside)
      ensures !wait ==> Remaining() < old(Remaining())
      ensures (data == old(data) || fresh(data)) && handle == null && (old(reconnectAttempted) ==> reconnectAttempted)
      ensures Calm(old(client.outside).choices, 2) ==>
        state.Open? && client.outside.choices == Skip(old(client.outside).choices, 2)
    {
      ResolvePath();
      wait := AskSize();
    }

    /** What Valid() says before the file is open. */
    ghost predicate AtOpen()
      reads this, client, data
    {
      && state.Open? && client.Valid() && clientReserved && client.pollOpInProgress && client.staleCalls == stale
      && OnRecord() && NotAuthenticating() && Steady() && SessionInUse() && client.sftp && LoggedInByPlan()
      && NothingRead() && DataRead()
    }

    /** Keeps the handle of the open file for the next stage. */
    method KeepHandle(h: RemoteHandle)
      requires AtOpen()
      requires h in client.openHandles && h.offset == 0 && h.content == client.env.files(absPath)
      modifies `handle, `state
      ensures Valid() && state.Read? && handle == h
    {
      handle := h;
      state := Read;
    }

    /** One attempt to open the file; a handle is kept for the next stage. */
    method CallOpen() returns (again: bool)
      requires AtOpen()
      modifies `handle, `state, client`outside, client`openHandles, client`remote
      ensures if state.Open? then AtOpen() else Valid() && state.Read? && !again && fresh(handle)
      ensures state.Open? && !again ==> client.outside.failures > Borne()
      ensures Calm(old(client.outside).choices, 2) ==>
        state.Read? && client.outside.choices == Skip(old(client.outside).choices, 2)
      ensures Later(old(client.outside), client.outside) && (again ==> Fewer(old(client.outside), client.outside))
      ensures bytesRead == 0
    {
      var h;
      again, h := client.Open(absPath, false);
      if h != null { KeepHandle(h); }
    }

    /** An attempt that has not opened the file waits or fails. */
    method FinishOpen(again: bool) returns (wait: bool)
      requires AtOpen() && (again || client.outside.failures > Borne())
      modifies this, client
      ensures Valid() && Later(old(client.outside), client.outside)
      ensures if wait then again && state.Open? else state.Closed?
      ensures data == old(data) && handle == null && reconnectAttempted == old(reconnectAttempted)
    {
      wait := false;
      if again {
        wait := GetPollInfo();
      } else {
        FailSession(false);
      }
    }

    method HandleOpen() returns (wait: bool)
      requires Valid() && state.Open?
      modifies this, client
      ensures Valid() && Later(old(client.outside), client.outside)
      ensures wait ==> state.Open? && Fewer(old(client.outside), client.outside)
      ensures !wait ==> Remaining() < old(Remaining())
      ensures data == old(data) && (handle == null || fresh(handle)) && reconnectAttempted == old(reconnectAttempted)
      ensures Calm(old(client.outside).choices, 2) ==>
        state.Read? && bytesRead == 0 && client.outside.choices == Skip(old(client.outside).choices, 2)
    {
      var again := CallOpen();
      wait := false;
      if handle == null { wait := FinishOpen(again); }
    }

    /** A read has failed for good; nothing else has happened since the last valid state. */
    ghost predicate ReadFailed()
      reads this, client, data
    {
      && Closable() && Excused() && state.Read? && agent.None? && handle != null && handle in client.openHandles
      && client.outside.readErrors > before.readErrors && client.outside.drops == before.drops
    }

    /** A hard read error: its report may drop the connection, and the handle with it, before the handle is closed. */
    method FailRead()
      requires ReadFailed()
      modifies this, client
      ensures Valid() && state.Closed? && Later(old(client.outside), client.outside)
      ensures data == old(data) && handle == null && reconnectAttempted == old(reconnectAttempted)
      ensures client.staleCalls - old(client.staleCalls) == client.outside.drops - old(client.outside.drops)
      ensures First(old(client.outside).choices) ==> client.staleCalls == old(client.staleCalls) + 1
    {
      var _ := client.SessionError();
      Abandon(false);
    }

    /** A read has put n bytes into the buffer that are not yet counted. */
    ghost predicate BytesAhead(n: nat)
      reads this, client, data, if handle == null then {} else {handle}
    {
      && state.Read? && client.Valid() && clientReserved && client.pollOpInProgress
      && client.staleCalls == stale && SessionInUse() && client.sftp && LoggedInByPlan() && NotAuthenticating()
      && OnRecord()
      && handle != null && handle in client.openHandles && handle.content == client.env.files(absPath)
      && absPath == AbsoluteFilename(client.sftpPath, path) && Named()
      && fileSize == data.Length == client.env.statSize(absPath)
      && handle.offset == bytesRead + n <= data.Length && bytesRead + n <= |client.env.files(absPath)|
      && data[..bytesRead + n] == client.env.files(absPath)[..bytesRead + n]
    }

    /** One read call. */
    method CallRead() returns (rc: int)
      requires Valid() && state.Read? && bytesRead < fileSize
      modifies client`outside, data, handle
      ensures Later(old(client.outside), client.outside)
      ensures rc == EAGAIN ==> Valid() && Fewer(old(client.outside), client.outside)
      ensures rc < 0 && rc != EAGAIN ==> ReadFailed()
      ensures rc > 0 ==> BytesAhead(rc) && Steady()
      ensures rc == 0 ==> BytesAhead(0) && bytesRead < fileSize && ReadToEnd()
      ensures Calm(old(client.outside).choices, 1) && First(Rest(old(client.outside).choices)) ==>
        rc < 0 && rc != EAGAIN && client.outside.choices == Skip(old(client.outside).choices, 2)
    {
      StageClosable();
      rc := client.Read(handle, data, bytesRead, fileSize - bytesRead);
      if rc >= 0 {
        assert data[..bytesRead + rc] == data[..bytesRead] + data[bytesRead..bytesRead + rc];
      } else {
        assert data[..bytesRead] == data[..][..bytesRead];
      }
    }

    method CountBytes(n: nat)
      requires BytesAhead(n) && Steady()
      modifies `bytesRead
      ensures Valid() && bytesRead == old(bytesRead) + n
    {
      bytesRead := bytesRead + n;
    }

    /** The loop is left before the size is reached. */
    method EndEarly()
      requires BytesAhead(0) && bytesRead < fileSize && ReadToEnd()
      modifies `state
      ensures Valid() && state.Close?
    {
      state := Close;
    }

    /** One read call and what it adds to the data. */
    method ReadChunk() returns (rc: int)
      requires Valid() && state.Read? && bytesRead < fileSize
      modifies `bytesRead, `state, client`outside, data, handle
      ensures Later(old(client.outside), client.outside) && fileSize == old(fileSize)
      ensures rc == EAGAIN ==> Valid() && state.Read? && Fewer(old(client.outside), client.outside)
      ensures rc < 0 && rc != EAGAIN ==> ReadFailed() && client.staleCalls == old(client.staleCalls)
      ensures rc > 0 ==> Valid() && state.Read? && bytesRead == old(bytesRead) + rc
      ensures rc == 0 ==> Valid() && state.Close? && client.outside.emptyReads == before.emptyReads + 1
      ensures rc <= 0 ==> bytesRead == old(bytesRead)
      ensures Calm(old(client.outside).choices, 1) && First(Rest(old(client.outside).choices)) ==>
        rc < 0 && rc != EAGAIN && client.outside.choices == Skip(old(client.outside).choices, 2)
    {
      rc := CallRead();
      if rc > 0 {
        CountBytes(rc);
      } else if rc == 0 {
        EndEarly();
      }
    }

    method CountCall()
      requires Valid() && state.Read?
      modifies `readCalls
      ensures Valid()
    {
      readCalls := readCalls + 1;
    }

    /** Every SFTP_POLL_CANCEL_CHECK_INTERVAL reads the operation may be cancelled. */
    method CheckCancelledInRead() returns (cancelled: bool)
      requires Valid() && state.Read?
      modifies this, client
      ensures Valid() && Later(old(client.outside), client.outside)
      ensures if cancelled then state.Closed?
              else state.Read? && fileSize == old(fileSize) && bytesRead == old(bytesRead)
      ensures data == old(data) && (handle == null || handle == old(handle))
      ensures reconnectAttempted == old(reconnectAttempted)
    {
      cancelled := false;
      CountCall();
      if readCalls % CANCEL_CHECK_INTERVAL == 0 {
        cancelled := AskInterrupted();
        if cancelled { Abandon(true); }
      }
    }

    /** After a read that did not fail the loop goes on, unless the caller has cancelled. */
    method ReadOn(more: bool) returns (round: Round)
      requires Valid() && (if more then state.Read? else state.Close?)
      modifies this, client
      ensures Valid() && Later(old(client.outside), client.outside)
      ensures if round.Again? then state == old(state) && bytesRead == old(bytesRead) && fileSize == old(fileSize)
              else round.Ended? && state.Closed?
      ensures data == old(data) && (handle == null || handle == old(handle))
      ensures reconnectAttempted == old(reconnectAttempted)
    {
      round := Again;
      if more {
        var cancelled := CheckCancelledInRead();
        if cancelled { round := Ended; }
      }
    }

    /** What a read means for the loop: it waits, fails, or goes on. */
    method AfterRead(rc: int) returns (round: Round)
      requires rc == EAGAIN || rc > 0 ==> Valid() && state.Read?
      requires rc == 0 ==> Valid() && state.Close?
      requires rc < 0 && rc != EAGAIN ==> ReadFailed()
      modifies this, client
      ensures Valid() && Later(old(client.outside), client.outside)
      ensures round.Again? ==>
        rc >= 0 && state == old(state) && bytesRead == old(bytesRead) && fileSize == old(fileSize)
      ensures round.Waits? ==> rc == EAGAIN && state.Read?
      ensures round.Ended? ==> state.Closed?
      ensures data == old(data) && (handle == null || handle == old(handle))
      ensures reconnectAttempted == old(reconnectAttempted)
      ensures rc < 0 && rc != EAGAIN && First(old(client.outside).choices) ==>
        client.staleCalls == old(client.staleCalls) + 1
    {
      if rc == EAGAIN {
        var wait := GetPollInfo();
        return if wait then Waits else Ended;
      }
      if rc < 0 {
        FailRead();
        return Ended;
      }
      round := ReadOn(rc > 0);
    }

    /** One round of the read loop. */
    method ReadRound() returns (round: Round)
      requires Valid() && state.Read? && bytesRead < fileSize
      modifies this, client, data, handle
      ensures Valid() && Later(old(client.outside), client.outside)
      ensures round.Again? ==> fileSize == old(fileSize)
                               && (state.Close? || (state.Read? && bytesRead > old(bytesRead)))
      ensures round.Waits? ==> state.Read? && Fewer(old(client.outside), client.outside)
      ensures round.Ended? ==> state.Closed?
      ensures data == old(data) && (handle == null || handle == old(handle))
      ensures reconnectAttempted == old(reconnectAttempted)
      ensures FailsAndYes(old(client.outside).choices) ==> client.staleCalls == old(client.staleCalls) + 1
    {
      var rc := ReadChunk();
      round := AfterRead(rc);
    }

    /** The loop of handleRead(): reads until the size is reached, the file ends early, or a read blocks or fails. */
    method ReadLoop() returns (round: Round)
      requires Valid() && state.Read?
      modifies this, client, data, handle
      ensures Valid() && Later(old(client.outside), client.outside)
      ensures round.Again? ==> state.Close? || (state.Read? && bytesRead >= fileSize)
      ensures round.Waits? ==> state.Read? && Fewer(old(client.outside), client.outside)
      ensures round.Ended? ==> state.Closed?
      ensures data == old(data) && (handle == null || handle == old(handle))
      ensures reconnectAttempted == old(reconnectAttempted)
      ensures old(bytesRead < fileSize) && FailsAndYes(old(client.outside).choices) ==>
        client.staleCalls == old(client.staleCalls) + 1
    {
      round := Again;
      ghost var fatal := bytesRead < fileSize && FailsAndYes(client.outside.choices);
      while round.Again? && state.Read? && bytesRead < fileSize
        invariant Valid() && Later(old(client.outside), client.outside)
        invariant round.Again? ==> state.Read? || state.Close?
        invariant round.Waits? ==> state.Read? && Fewer(old(client.outside), client.outside)
        invariant round.Ended? ==> state.Closed?
        invariant data == old(data) && reconnectAttempted == old(reconnectAttempted)
        invariant handle == null || handle == old(handle)
        invariant fatal ==>
          || client.staleCalls == old(client.staleCalls) + 1
          || (round.Again? && state.Read? && bytesRead < fileSize
              && client.outside == old(client.outside) && client.staleCalls == old(client.staleCalls))
        decreases round.Again?, state.Read?, fileSize - bytesRead
      {
        round := ReadRound();
      }
    }

    /** handleRead() */
    method HandleRead() returns (wait: bool)
      requires Valid() && state.Read?
      modifies this, client, data, handle
      ensures Valid() && Later(old(client.outside), client.outside)
      ensures wait ==> state.Read? && Fewer(old(client.outside), client.outside)
      ensures !wait ==> Remaining() < old(Remaining())
      ensures data == old(data) && (handle == null || handle == old(handle))
      ensures reconnectAttempted == old(reconnectAttempted)
      ensures old(bytesRead < fileSize) && FailsAndYes(old(client.outside).choices) ==>
        client.staleCalls == old(client.staleCalls) + 1
    {
      var round := ReadLoop();
      wait := round.Waits?;
      if round.Again? { state := Close; }
    }

    /** The file was closed: what the operation needs to end with its data. */
    ghost predicate Complete()
      reads this, client, data
    {
      && client.Valid() && clientReserved && client.pollOpInProgress && state.Close?
      && client.staleCalls == stale && ReadToEnd() && OnRecord()
      && NotAuthenticating() && restoreSessionBlocking && !connecting
      && client.sftp && LoggedInByPlan() && DataRead()
    }

    method Finish()
      requires Complete()
      modifies this, client
      ensures Valid() && state.Done? && Later(old(client.outside), client.outside)
      ensures data == old(data) && reconnectAttempted == old(reconnectAttempted) && handle == null
    {
      handle, state := null, Done;
      CloseIntern(false);
    }

    /** One attempt to close the file; the operation is done once it is closed. */
    method CallClose() returns (again: bool)
      requires Valid() && state.Close?
      modifies this, client
      ensures Valid() && Later(old(client.outside), client.outside)
      ensures if again then state.Close? && handle == old(handle) && Fewer(old(client.outside), client.outside)
              else state.Done?
      ensures data == old(data) && reconnectAttempted == old(reconnectAttempted)
    {
      again := client.CloseHandle(handle);
      if !again { Finish(); }
    }

    method HandleClose() returns (wait: bool)
      requires Valid() && state.Close?
      modifies this, client
      ensures Valid() && Later(old(client.outside), client.outside)
      ensures wait ==> state.Close? && Fewer(old(client.outside), client.outside)
      ensures !wait ==> Remaining() < old(Remaining())
      ensures data == old(data) && (handle == null || handle == old(handle))
      ensures reconnectAttempted == old(reconnectAttempted)
    {
      wait := false;
      var again := CallClose();
      if again { wait := GetPollInfo(); }
    }

    // ---- the driver --------------------------------------------------------------------------------------------

    /** One turn of the loop of continuePollIntern(): a handler waits, advances, restarts or ends the operation. */
    method Advance() returns (wait: bool)
      requires Valid() && !IsTerminal(state)
      modifies this, client, data, handle
      ensures Valid() && Later(old(client.outside), client.outside)
      ensures wait ==> state == old(state) && Fewer(old(client.outside), client.outside)
      ensures !wait ==> Remaining() < old(Remaining())
      ensures data == old(data) || fresh(data)
      ensures handle == null || handle == old(handle) || fresh(handle)
      ensures old(reconnectAttempted) ==> reconnectAttempted
    {
      wait := false;
      match state
      case Start => HandleStart();
      case Connecting => wait := HandleConnecting();
      case Handshake => wait := HandleHandshake();
      case AuthList => wait := HandleAuthList();
      case Auth => wait := HandleAuth();
      case SftpInit => wait := HandleSftpInit();
      case RealPath => wait := HandleRealPath();
      case Stat => wait := HandleStat();
      case Open => wait := HandleOpen();
      case Read => wait := HandleRead();
      case Close => wait := HandleClose();
    }

    /** continuePollIntern() */
    method ContinuePollIntern() returns (wait: bool)
      requires Valid() && !IsTerminal(state)
      modifies this, client, data, handle
      ensures Valid() && Later(old(client.outside), client.outside)
      ensures wait ==> !IsTerminal(state) && Fewer(old(client.outside), client.outside)
      ensures !wait ==> IsTerminal(state)
      ensures data == old(data) || fresh(data)
      ensures handle == null || handle == old(handle) || fresh(handle)
      ensures old(reconnectAttempted) ==> reconnectAttempted
    {
      wait := false;
      while !IsTerminal(state)
        invariant Valid() && Later(old(client.outside), client.outside)
        invariant data == old(data) || fresh(data)
        invariant handle == null || handle == old(handle) || fresh(handle)
        invariant old(reconnectAttempted) ==> reconnectAttempted
        decreases Remaining()
      {
        wait := Advance();
        if wait { return; }
      }
    }

    /** continuePoll(): every call ends, either to wait or because the operation is over; an operation that is over
        stays as it is.
     */
    method ContinuePoll() returns (wait: bool)
      requires IsTerminal(state) || Valid()
      modifies this, client, data, handle
      ensures IsTerminal(old(state)) ==> !wait && unchanged(this) && unchanged(client)
      ensures !IsTerminal(old(state)) ==> Valid() && Later(old(client.outside), client.outside)
      ensures wait ==> !IsTerminal(state) && Fewer(old(client.outside), client.outside)
      ensures !wait ==> IsTerminal(state)
      ensures data == old(data) || fresh(data)
      ensures handle == null || handle == old(handle) || fresh(handle)
      ensures old(reconnectAttempted) ==> reconnectAttempted
    {
      if IsTerminal(state) { return false; }
      var cancelled := AskInterrupted();
      if cancelled {
        Abandon(true);
        return false;
      }
      wait := ContinuePollIntern();
    }

    /** Gives up an operation that is not over. */
    method GiveUp()
      requires Valid() && !IsTerminal(state)
      modifies this, client
      ensures Valid() && state.Closed? && Released() && !client.pollOpInProgress
      ensures client.staleCalls == old(client.staleCalls) && client.History() == old(client.History())
      ensures |client.outside.choices| <= |old(client.outside).choices|
      ensures data == old(data) && reconnectAttempted == old(reconnectAttempted)
      ensures old(handle) == null ==> client.session == old(client.session) && client.sftp == old(client.sftp)
      ensures unchanged(client`sftpPath)
    {
      StageClosable();
      client.CallerGivesUp();
      Abandon(false);
    }

    /** deref() of the last reference: an operation that is over has nothing to release; any other is given up, with
        what it holds released, its history on record and its connection left open.
     */
    method Deref()
      requires IsTerminal(state) ==> Released() && client.Valid()
      requires !IsTerminal(state) ==> Valid()
      modifies this, client
      ensures client.Valid() && Released() && IsTerminal(state)
      ensures client.staleCalls == old(client.staleCalls) && client.History() == old(client.History())
      ensures old(clientReserved) ==> !client.pollOpInProgress
      ensures !old(clientReserved) ==> client.pollOpInProgress == old(client.pollOpInProgress)
      ensures IsTerminal(old(state)) ==>
        state == old(state) && client.Untouched() && client.outside == old(client.outside)
      ensures !IsTerminal(old(state)) ==> Valid() && state.Closed?
      ensures |client.outside.choices| <= |old(client.outside).choices|
      ensures data == old(data) && reconnectAttempted == old(reconnectAttempted)
      ensures old(handle) == null ==> client.session == old(client.session) && client.sftp == old(client.sftp)
      ensures unchanged(client`sftpPath)
    {
      if IsTerminal(state) {
        CloseIntern(false);
      } else {
        GiveUp();
      }
    }

    /** getOutput() */
    function GetOutput(): (output: Option<seq<byte>>)
      requires bytesRead <= data.Length
      reads this, data
    {
      if state.Done? then Some(data[..bytesRead]) else None
    }
  }

  /** The results of stepAgentAuth(). */
  datatype AgentStep = AgentBlocked | AgentAccepted | AgentNoMore | AgentError

  datatype Round = Again | Waits | Ended

  /** PROVIDER markers in the queue, candidate lists not fetched, candidates not resolved, and attempts. */
  datatype AuthWork = AuthWork(markers: nat, unfetched: nat, unresolved: nat, attempts: nat)

  /** Lexicographically smaller. */
  predicate Smaller(a: AuthWork, b: AuthWork) {
    || a.markers < b.markers
    || (a.markers == b.markers
        && (a.unfetched < b.unfetched
            || (a.unfetched == b.unfetched
                && (a.unresolved < b.unresolved || (a.unresolved == b.unresolved && a.attempts < b.attempts)))))
  }
}
