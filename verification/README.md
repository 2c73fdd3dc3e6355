# A verified model of the ssh2 module's connections and transfers

This project models the part of the Qore ssh2 module in which several drivers, callers and threads share one connection,
and proves what they keep. The proofs are written for Dafny 4.11 (`dafny verify dfyconfig.toml`).

* **Two connect drivers, one meaning.** `AuthSemantics.dfy` gives an authentication plan its meaning as nested loops.
  `SftpClient.dfy` is the client with its libssh2 calls, its waits, its teardown and the blocking driver;
  `PollOperation.dfy` is the resumable SFTP download with its 13 stages and its flat queue, in which a `PROVIDER` marker
  is expanded lazily. Both are proved against the same meaning, so `Drivers.dfy` can show that the two do the same under
  any schedule of EAGAIN results, and a beginning of it when they are interrupted. `AuthPlan.dfy` is the configuration and
  the plan built from it, `AuthGuard.dfy` what the log of either driver may look like, `AuthTrace.dfy` where the keys in it
  come from, `Outside.dfy` what the outside world decides and is on record for, `Ssh2Types.dfy` the shared values.
* **Transfers.** `Transfers.dfy` has the blocking downloads and uploads with their cleanup at every exit; `EndToEnd.dfy`
  compares all ways to download a file, sends a file up and down again, and connects a client from its configuration on.
* **Several actors.** `Reservation.dfy`, `Descriptor.dfy` and `Lifecycle.dfy` are transition systems over one lock: the two
  flags of the client with the sessions its calls work on, the descriptor that `closeIo()` may close without the lock, and
  the registries and reference counts of channels, listeners and operations.
* **Host keys.** `HostKeys.dfy` has trust on first use with a known_hosts file and with an object store.
* **Two independent tools.** `NoteWalker.dfy` and `MetadataCheck.dfy` are the ELF note reader and the check of AOT module
  metadata, `ElfImage.dfy` prints the images it reads, field by field; `Poller.dfy` and `Glob.dfy` are the polling loop
  and the file mask of SftpPoller.

How the outside world appears in the model:

* Whether a call reports EAGAIN, a wait fails, the caller cancels, a call fails, a read returns nothing or an error report
  finds the connection dead is decided by `outside.choices`, a finite sequence of decisions, each asked for once where the
  code would find out. The theorems are about every such schedule; how many bytes a read or write moves is not decided
  by it but left open.
* `outside` also counts what happened: interruptions, operations given up, failing calls, hard read errors, empty reads,
  connections dropped by an error report, adopted connections found lost, and the failures when one of these was last given
  up to be replaced. Only
  the members that stand for the outside world change these counters, so a contract that says "unless it was interrupted"
  means that one of them has really said so.
* A poll operation may be continued, aborted or destroyed whenever it waits; the schedule decides.
* The answers of the server, the agent, the provider and the sandbox are functions of everything completed before
  (`Env`), so nothing is assumed about them except that the same history gets the same answer. The environment's files and
  the working directory the server names do not change during a connection; what is written is kept in `remote`.
* `staleCalls` counts libssh2 calls made with a handle or agent whose session was already freed. It is a counter and not
  a precondition, so that the code may be shown to make such a call.
* The ghost field `planned` of a poll operation is the run of its plan so far; the ghost constants record the state it was
  created in. They decide nothing.

What the code does not do as its comments or names suggest, stated exactly in the model:

* In the blocking agent loop, a wait that fails has already disconnected, so the agent is released after its session was
  freed although the comment there promises the opposite order: exactly if the session's end in the log directly follows
  an agent call that had to be repeated (`TryIdentity` up to `SshConnectUnlocked` and `EnsureConnected`; a run in which it
  happens is `AgentReleasedLate`).
* After a hard read error, the poll operation's error report can drop the connection before the file handle is closed;
  the handle is then used once after it was freed, exactly then (`FailRead`, `Retrieve`; a run is `FreedHandleIsUsed`).
* A failed write of the known_hosts file can lose other hosts' entries: trust on first use is sticky exactly if failed
  writes leave the entry in place (`TrustIsSticky`, `FailedWriteForgets`).
* An operation that is destroyed while it asks for the working directory leaves an SFTP session without one. The next
  operation on it goes straight to the stat, with relative names looked up in the root directory: exactly such an operation
  does so, unless it replaces the session (`Retrieve`; `NameChangesItsMeaning`).
* `sftpConnect()` sets no flag, so while it runs callbacks a poll operation can reserve the client, and `disconnect()` can
  end the session it goes on with; the same holds for an SFTP method. Which steps of other threads do this is stated
  exactly (`SessionStaysIff`, `CallFindsSession`; runs are `SftpConnectLosesSession` and `MethodLosesSession`).
  `sshConnect()`, whose flag is set, keeps its session (`ConnectKeepsSession`).
* The documentation of the poll operation promises that other operations on a reserved client fail. SFTP methods on a
  session that is up are let in, and can end the operation's session. The steps after which an operation can lose its
  session are exactly two kinds of risky calls (`OperationKeepsSession`, `RiskyExactly`, `CarefulExactly`; runs are
  `OperationLosesSessionToConnect` and `OperationLosesSessionToMethod`).
* While a disconnect closes channels, the registry can hold pointers to destroyed channels; they are never followed
  (`DanglingEntriesExist`, `LifecycleSafe`).

## Model

| member | source | states |
|---|---|---|
| `AuthSemantics.ResolvedAsMeant` | src/SSH2Client.cpp:1275-1444 | for every candidate and material, the plan of the semantics is the only one that means them: an exception is raised exactly if something the kind calls for is missing or the kind is unknown, and otherwise the plan has exactly the attempts the candidate stands for: the private key file it or its material names, with no public key file and the password of the client; the private key its material holds, with the public key that comes with it; the agent |
| `AuthSemantics.ResumeFresh` | src/SftpPollOperation.cpp:518-525 | a queue that was just filled means exactly what the nested blocking loops do with the same plan |
| `AuthSemantics.ResumePrefix` | src/SftpPollOperation.cpp:680-686 | putting the attempts of a resolved candidate in front of the queue means making them before everything that was queued, markers and remaining candidates included |
| `AuthSemantics.ResumeMarker` | src/SftpPollOperation.cpp:646-664 | a marker at the front of the queue means nothing without public key authentication, otherwise a failure of the provider or the list it names at this moment |
| `AuthSemantics.ResumeResolve` | src/SftpPollOperation.cpp:675-686 | resolving one candidate lazily and leaving the marker for the others does not change what the queue means; a candidate that cannot be resolved ends the plan |
| `AuthSemantics.ResumeExtends` | src/SftpPollOperation.cpp:527-604 | whatever a suspended operation has done is the beginning of what its plan means |
| `AuthSemantics.PlanExtends` | src/SSH2Client.cpp:1847-1859 | whatever a plan does only adds to the history |
| `SftpClient.SFTPClient.CandidatePlan` | src/SSH2Client.cpp:1279-1444 | the branches of the resolution end in what the candidate and its material mean, under the condition for an exception |
| `SftpClient.SFTPClient.AddMemoryKeyAttempt` | src/SSH2Client.cpp:1446-1454 | one attempt with the public and the private key in this order, exactly if there is a private key and the library supports keys in memory |
| `AuthTrace.PlanIsConfigured` | src/SSH2Client.cpp:1057-1140 | every attempt of a plan has the keys of the settings: the public key file before the private one, with the password of the user; the key in memory with its own password or else that of the user |
| `AuthTrace.RunNamesKeys` | src/SSH2Client.cpp:1198-1232 | every key that is checked or used in any part of a run is one of the settings, or the provider resolved a candidate of the list it sent in this run into it immediately before; a call with key files directly follows its own successful check |
| `AuthTrace.PlanUntilLogin` | src/SSH2Client.cpp:1847-1859 | a run stops at its first accepted call, has logged in exactly if its last event is one, and reports agent, publickey, password or keyboard-interactive according to this call |
| `SftpClient.SFTPClient.TryIdentity` | src/SSH2Client.cpp:1022-1047 | one identity of the agent is tried until its call completes, and given up only after a cancellation or a failed wait; the agent is released after its session was freed (one stale call) exactly if the session's end directly follows a call of the agent that had to be repeated, which a schedule whose wait fails brings about |
| `SftpClient.SFTPClient.TryAgentAuth` | src/SSH2Client.cpp:1014-1055 | the blocking loop over the identities does what the plan semantics says; it is aborted, with a beginning of it done, only if an interruption was recorded; a stale call is made exactly if the log of this connect ends its session directly after a blocked agent call |
| `SftpClient.SFTPClient.RunSingleAttempt` | src/SSH2Client.cpp:1198-1232 | a single-call attempt is made after its own access check, repeated until it completes, and reports the method that logged in; only a recorded interruption aborts it |
| `SftpClient.SFTPClient.RunAuthAttempt` | src/SSH2Client.cpp:1198-1232 | every kind of attempt does what its meaning says, under any schedule, and is aborted only by a recorded interruption |
| `SftpClient.SFTPClient.TryProviderAuth` | src/SSH2Client.cpp:1456-1487 | the nested loop over the candidates and their sub-plans does what the semantics of a marker says, is aborted only by a recorded interruption, and terminates because sub-plans have no markers |
| `SftpClient.SFTPClient.RunAuthPlan` | src/SSH2Client.cpp:1847-1859 | the loop over the plan does what the plan means and stops at the first login or failure; only a recorded interruption aborts it, and the stale call of the agent loop is made exactly if the log shows it |
| `SftpClient.SFTPClient.Authenticate` | src/SSH2Client.cpp:1828-1894 | after the host key was accepted: a run of exactly the plan the configuration and the server ask for; success means the run logged in, and the reported method is the one that did; without an interruption the run ends by itself, and a stale call is made exactly if the session ended while an agent call had to be repeated |
| `SftpClient.SFTPClient.OpenSession` | src/SSH2Client.cpp:1788-1826 | success means a live session whose host key was accepted; failure leaves no new session |
| `SftpClient.SFTPClient.SshConnectUnlocked` | src/SSH2Client.cpp:1773-1894 | the blocking connect is refused, with nothing changed, while the client is reserved, and otherwise succeeds exactly when the run of the plan logs in; undisturbed, a run takes place exactly if there is a user and the host key is accepted; stale calls are exact over the log also when it fails |
| `SftpClient.SFTPClient.AuthCallUnlocked` | src/SSH2Client.cpp:1159-1196 | an authentication call may only be made on a verified session and, with key files, for the attempt that passed its access check last |
| `SftpClient.SFTPClient.CheckAttemptAccess` | src/SSH2Client.cpp:1142-1157 | a denied key file disconnects; an allowed one arms exactly this attempt |
| `SftpClient.SFTPClient.VerifyHostKey` | src/SSH2Client.cpp:1529-1745 | only an accepted host key leaves a session that may be used for authentication; otherwise nothing of the connection is left |
| `SftpClient.SFTPClient.PrepareSession` | src/SSH2Client.cpp:1489-1518 | the session is created non-blocking, on a held descriptor, or everything is released |
| `SftpClient.SFTPClient.CheckConnectPreconditions` | src/SSH2Client.cpp:1747-1771 | failing changes nothing; succeeding has ended an old session |
| `SftpClient.SFTPClient.WaitSocket` | src/SSH2Client.h:475-498 | a failed wait has disconnected and closed the dependent handle, without a call on anything freed; a successful one changes nothing |
| `SftpClient.SFTPClient.DisconnectUnlocked` | src/SFTPClient.cpp:190-205 | nothing of the connection is left, no freed handle or session is used, and the re-entry through the dependent handle is bounded by the termination measure |
| `SftpClient.SFTPClient.DoShutdown` | src/SFTPClient.cpp:153-171 | the SFTP session and all its handles are gone, also when a wait fails |
| `SftpClient.SFTPClient.SshDisconnect` | src/SSH2Client.cpp:659-710 | frees a session at most once and then releases the descriptor |
| `SftpClient.SFTPClient.SessionError` | src/SFTPClient.cpp:1758-1796 | reporting an error either drops the whole connection, which is recorded, or changes nothing |
| `SftpClient.QSftpHelper.CloseIntern` | src/SFTPClient.cpp:1842-1861 | the helper's handle is gone: closed alone, or together with the connection when it cannot be closed (never in blocking mode); no freed handle is used |
| `SftpClient.QSftpHelper.PreDisconnect` | src/SFTPClient.h:111-114 | a disconnect closes the dependent handle first; closing it can disconnect, and this nesting ends |
| `SftpClient.QSftpHelper.Err` | src/SFTPClient.cpp:1808-1823 | after an error report the handle is gone and the connection is either dropped or otherwise as before |
| `AuthGuard.GuardedCalls` | src/SSH2Client.cpp:1142-1157 | in a log the guard accepts, every authentication call follows an accepted host key of the same session, and every key-file call its own access check with only repetitions in between |
| `AuthGuard.AcceptedLogIsGuarded` | src/SSH2Client.cpp:1824-1859 | the same for all calls of a log, without mentioning the guard |
| `AuthGuard.GuardOrigin` | src/SSH2Client.cpp:1213-1222 | what the guard remembers really happened earlier in the log |
| `AuthPlan.Configuration.constructor` | src/SSH2Client.cpp:467-515 | auto-discovery of the default keys ends in the settings that the outcome of its checks determines |
| `AuthPlan.Configuration.SetKeyFiles` | src/SSH2Client.cpp:790-847 | setting key files is refused while connected, leaves exactly the files that passed their checks, and keeps the settings consistent |
| `AuthPlan.Configuration.ApplyAll` | src/SSH2Client.h:712-847 | any sequence of setter calls leaves consistent settings, which are the fold of the changes, each with its own checks |
| `AuthPlan.ReachableConsistent` | src/SSH2Client.cpp:467-515 | through constructor and setters, explicit and auto-discovered keys are never both in force |
| `AuthPlan.BuildPlan` | src/SSH2Client.cpp:1057-1140 | the pushes produce the one list that contains exactly the attempts on offer, in order of precedence |
| `AuthPlan.PlanShape` | src/SSH2Client.cpp:1057-1140 | at most one attempt of each kind, the marker exactly when a provider is configured, agent and default keys beside a provider only as the fallback policy allows, password attempts last |
| `AuthPlan.UniquePlan` | src/SSH2Client.cpp:1057-1140 | configuration and advertised methods determine the plan, so both drivers execute the same one |
| `PollOperation.SftpPollOperation.constructor` | src/SftpPollOperation.cpp:45-54 | a new operation owns the reservation its client was given |
| `PollOperation.SftpPollOperation.CloseIntern` | src/SftpPollOperation.cpp:151-198 | everything the operation holds is released in order, a restored session is in blocking mode, and only the operation's own reservation is cleared |
| `PollOperation.SftpPollOperation.Abandon` | src/SftpPollOperation.cpp:151-198 | an operation closes only for a recorded reason, with nothing held, its history on record and its session back in blocking mode unless it was adopted in non-blocking mode; that nobody could be asked to log in, or the host key would be rejected, is a reason only for a connection of its own, and what failed before a connection was replaced is none afterwards; the connection is gone if asked for, and untouched otherwise when no handle was open; the handle is used after it was freed exactly if a failed read had dropped the connection |
| `PollOperation.SftpPollOperation.Abort` | src/SftpPollOperation.cpp:78-86 | aborting an operation that is over changes nothing; any other is closed together with its connection |
| `PollOperation.SftpPollOperation.Deref` | src/SftpPollOperation.cpp:64-76 | destroying an operation changes nothing if it is over; otherwise it is closed for a recorded reason with everything released, no freed handle used, the history as it was, its session, if no handle was open, left connected, and the mode restored; never is another operation's reservation released |
| `PollOperation.SftpPollOperation.HandleStart` | src/SftpPollOperation.cpp:374-407 | a session is adopted in non-blocking mode, and then given up only for a recorded failure or interruption, or a connection is begun; the stage advances, and on an SFTP session without a disturbance to STAT |
| `PollOperation.SftpPollOperation.EstablishSession` | src/SftpPollOperation.cpp:458-482 | a session is created only on a held descriptor; the stage advances or nothing is left |
| `PollOperation.SftpPollOperation.HandleConnecting` | src/SftpPollOperation.cpp:440-483 | waits only for EAGAIN, otherwise advances or closes |
| `PollOperation.SftpPollOperation.HandleHandshake` | src/SftpPollOperation.cpp:485-505 | authentication is reached only with an accepted host key |
| `PollOperation.SftpPollOperation.FillQueue` | src/SftpPollOperation.cpp:518-525 | the queue is filled with the plan of the blocking driver |
| `PollOperation.SftpPollOperation.StepAgentAuth` | src/SftpPollOperation.cpp:605-644 | stepping through the identities keeps the meaning of the queue: blocked, exhausted and accepted each mean what the nested loop would do |
| `PollOperation.SftpPollOperation.ExpandProviderAttempt` | src/SftpPollOperation.cpp:646-687 | expanding a marker keeps the meaning of the queue and makes the work left smaller |
| `PollOperation.SftpPollOperation.CheckFront` | src/SftpPollOperation.cpp:561-571 | the access check is made once per attempt, and a denial is the failure the plan means |
| `PollOperation.SftpPollOperation.CallFront` | src/SftpPollOperation.cpp:572-582 | a completed call is the plan's next event; a blocked one changes nothing |
| `PollOperation.SftpPollOperation.FinishAuth` | src/SftpPollOperation.cpp:589-602 | after a login the method is reported and agent, queue and candidates are released |
| `PollOperation.SftpPollOperation.HandleAuth` | src/SftpPollOperation.cpp:527-603 | one call of the authentication loop terminates (markers, unfetched and unresolved candidates, attempts), waits only for EAGAIN with the plan's meaning kept, and closes with attempts left only after a recorded interruption |
| `PollOperation.SftpPollOperation.RetryAfterConnectionLoss` | src/SftpPollOperation.cpp:307-332 | a restart happens exactly if the failed session was adopted, was not replaced before and is found lost; then the connection is gone, nothing learnt about the file is left, and only later failures are reasons to end; otherwise nothing is changed |
| `PollOperation.SftpPollOperation.HandleSftpInit` | src/SftpPollOperation.cpp:689-705 | starts the SFTP session, waits, or fails; an adopted session that is found lost is replaced, once |
| `PollOperation.SftpPollOperation.HandleStat` | src/SftpPollOperation.cpp:727-748 | the size is asked for under the path that the name means in the directory the session knows; an adopted session that is found lost is replaced, once |
| `PollOperation.SftpPollOperation.ReadChunk` | src/SftpPollOperation.cpp:779-803 | a read adds exactly the next bytes of the file to the data, in bounds; the loop is left early exactly if the read returned nothing |
| `PollOperation.SftpPollOperation.HandleRead` | src/SftpPollOperation.cpp:774-804 | the loop reads a prefix of the file, and stops before the stat size only at a read that returned nothing, an interruption or a hard error, under any chunking and any suspensions |
| `PollOperation.SftpPollOperation.FailRead` | src/SftpPollOperation.cpp:781-786 | after a hard read error the stale calls grow exactly as the connections dropped by error reports do: the handle is used once after it was freed exactly then |
| `PollOperation.SftpPollOperation.HandleClose` | src/SftpPollOperation.cpp:806-820 | the operation is done, with all its data and its SFTP session still up in its old mode, only after its handle was closed |
| `PollOperation.SftpPollOperation.Advance` | src/SftpPollOperation.cpp:368-438 | a handler that does not wait has advanced the stage, closed the operation or used its only restart |
| `PollOperation.SftpPollOperation.ContinuePoll` | src/SftpPollOperation.cpp:353-366 | every call returns: to wait, with one EAGAIN result used up, or with the operation over; an operation that is over stays as it is |
| `Drivers.RunToEnd` | src/SftpPollOperation.cpp:353-438 | a whole operation under any schedule of suspensions and aborts ends |
| `Drivers.Retrieve` | src/SftpPollOperation.cpp:45-94 | a whole retrieval, continued, aborted or destroyed at any moment: output is a prefix of the file the name means, of the stat size exactly if no read returned nothing; there is none only if something was interrupted or failed on the connection used last, the plan did not log in, or a connection of its own could not authenticate; an adopted session on which nothing fails always delivers, without a login and without being replaced; an adopted session is replaced exactly if it was found lost; a delivered file leaves the session up; a read error that no decision caused means that the file is shorter than its size; without decisions in the schedule nothing is given up; the reservation is cleared, a session is left in non-blocking mode only if it was found so, the reported method is the one that logged in, and one stale call was made exactly if a failed read was followed by a dropped connection |
| `Drivers.PollGetFile` | src/SftpPollOperation.cpp:353-438 | the same on a client that may have been connected before, with every authentication call guarded, every key from the settings or named by the provider, and the authentication a run of the plan; after a connect, a retrieval on which nothing fails delivers |
| `Drivers.TwoRunsAgree` | src/SSH2Client.cpp:1847-1859 | two runs from the same history, by whichever drivers, have the same plan and, if both ended by themselves, the same result and the same completed attempts, resolutions and checks; an aborted one is a beginning of the other |
| `Drivers.ConnectBothWays` | src/SSH2Client.h:77-82 | both drivers connecting to the same server, each under its own schedule: if nothing is interrupted and nothing fails they have the same run and the same history, one logs in exactly if the other does, and the file is retrieved exactly then; an interrupted one has done a beginning of the other; all keys of either are from the settings or named by the provider at that moment |
| `Drivers.AgentReleasedLate` | src/SSH2Client.cpp:1022-1047 | an explicit schedule, eight calm decisions, an EAGAIN and a failed wait, after which the blocking connect has released the agent after its session |
| `Transfers.ReadSome` | src/SFTPClient.cpp:854-863 | a read is repeated until it completes; a failure leaves no open handle, and nothing freed was used |
| `Transfers.WriteSome` | src/SFTPClient.cpp:1186-1196 | a write is repeated until it completes and adds exactly the accepted bytes to the remote file |
| `Transfers.ReadAll` | src/SFTPClient.cpp:852-867 | the buffer is filled in bounds with the first bytes of the file, for every chunking; it fails only if something was interrupted or failed |
| `Transfers.CopyOut` | src/SFTPClient.cpp:1014-1048 | every byte is passed on once and in order; after a failure a beginning was, and there is a reason for it |
| `Transfers.OpenFile` | src/SFTPClient.cpp:827-841 | the handle the helper holds is the only one added, or nothing is |
| `Transfers.IsAlive` | src/SFTPClient.cpp:677-703 | a connection reported as alive is still usable, and nothing is left open; one on which nothing is interrupted and nothing fails is reported as alive |
| `Transfers.Leave` | src/SSH2Client.h:876-887 | leaving an operation closes its handle and puts the session back in blocking mode; the connection goes only if closing failed |
| `SftpClient.PathIsAbsolute` | src/SFTPClient.h:225-235 | an absolute name is its own path; any other one is the end of a path below the working directory, with one separator; what is resolved is absolute and stays the same in every directory |
| `Transfers.SftpConnectUnlocked` | src/SFTPClient.cpp:721-786 | refused while reserved; success leaves a usable client in blocking mode with a working directory, logged in by the plan; undisturbed, it fails only if the plan does not log in or nobody can be asked to; stale calls are exact over the log |
| `Transfers.EnsureConnected` | src/SFTPClient.cpp:797-799 | an implicit connect that succeeds leaves a usable client and no stale call; a connection that is up and undisturbed is used as it is; undisturbed, it fails only if the plan does not log in; when it fails, a stale call was made exactly if the log shows it |
| `Transfers.GetFile` | src/SFTPClient.cpp:794-872 | content is returned only if the server has as much of the file as it says, and is then the file up to this size; nothing is returned only if something was interrupted or failed; no handle is left open, and the connection stays up in blocking mode with nothing logged, unless something was interrupted or failed |
| `Transfers.GetTextFile` | src/SFTPClient.cpp:874-950 | the same, the connection included, with room for the terminator |
| `Transfers.RetrieveTo` | src/SFTPClient.cpp:952-1147 | the same content arrives at the file or stream, with its length returned; a beginning of it after a failure, which only an interruption or a failure of either end can cause; the connection stays up unless something was interrupted or failed on it |
| `Transfers.SendAll` | src/SFTPClient.cpp:1290-1313 | under partial writes all of a chunk is accepted once, in order, and the internal size assertions hold |
| `Transfers.SendBytes` | src/SFTPClient.cpp:1183-1200 | the remote file is the data, whatever counts are accepted |
| `Transfers.SendFile` | src/SFTPClient.cpp:1272-1317 | the chunks of the local file arrive in order; no chunk is empty |
| `Transfers.SendStream` | src/SFTPClient.cpp:1354-1392 | the stream arrives in order until its end |
| `Transfers.PutFile` | src/SFTPClient.cpp:1149-1210 | success: the remote file is exactly the data and the count its length; failure, for which something was interrupted or failed: a beginning of it; no other file changes, and the connection stays up unless something was interrupted or failed |
| `Transfers.Upload` | src/SFTPClient.cpp:1212-1410 | the same for a local file and for a stream |
| `EndToEnd.PollDeliversDownload` | src/SftpPollOperation.cpp:774-820 | a poll operation delivers what the blocking methods deliver exactly if none of its reads returned nothing |
| `EndToEnd.DownloadBothWays` | src/SFTPClient.cpp:846-867 | any two blocking downloads under one name deliver the same bytes, and a poll operation the same exactly if none of its reads returned nothing, each under its own chunking and schedule; if nothing is interrupted and nothing fails, one delivers exactly if the other does |
| `EndToEnd.PutThenGet` | src/SFTPClient.cpp:1149-1210 | what was put under a name is what a later connection gets under it by a blocking download, and by a poll operation exactly if none of its reads returned nothing; every other file is unchanged; a put that nothing interrupts and nothing fails succeeds if the login does |
| `EndToEnd.ConfigureAndConnect` | src/SSH2Client.cpp:1788-1894 | a client configured by its constructor and any setters and then connected: the run is that of the one plan these settings and the server's list ask for, with the marker exactly when a provider is configured and no kind twice, and every authentication call is guarded |
| `EndToEnd.FreedHandleIsUsed` | src/SftpPollOperation.cpp:781-786 | an explicit schedule of six calm decisions, a failing read and a dropped connection, after which a poll operation on a blocking session has used a freed handle |
| `EndToEnd.NameChangesItsMeaning` | src/SftpPollOperation.cpp:374-407 | whenever an operation is destroyed while it asks for the working directory, it leaves an SFTP session without one; the next operation on it, if nothing fails, delivers a file without having asked, and looks a relative name up in the root directory |
| `EndToEnd.LostSessionIsReplaced` | src/SftpPollOperation.cpp:307-332 | an explicit schedule in which the stat of an adopted session fails and the session is found lost: the operation connects again, logs in, delivers the file and leaves the new session up |
| `HostKeys.KnownHostsFile.VerifyHostKey` | src/SSH2Client.cpp:1529-1727 | which keys are accepted under every policy and fault, that the file changes only by the accepted new entry, and that a mismatch or an unknown key is reported exactly when the key was compared and differs or has no entry |
| `HostKeys.AcceptedIsRead` | src/SSH2Client.cpp:1566-1599 | with a file, a key is accepted only if what there is of the file was read, agrees with an entry that is there, and is in the file afterwards |
| `HostKeys.EntryStaysIff` | src/SSH2Client.cpp:1645-1703 | an entry is in the file at every moment of a sequence of verifications exactly if every write that fails leaves it there |
| `HostKeys.PinnedIff` | src/SSH2Client.cpp:1601-1660 | a key has an entry exactly if a faultless verification under every policy accepts this key and no other; with an entry, no verification with the file accepts another key, faults or not |
| `HostKeys.TrustIsSticky` | src/SSH2Client.cpp:1645-1703 | once a key was accepted with a file, it is pinned at every later moment, whatever verifications and faults follow, exactly if every write that fails leaves its entry in the file |
| `HostKeys.NoFailedWrites` | src/SSH2Client.cpp:1686-1699 | it is enough that no verification that gets as far as writing fails to write |
| `HostKeys.FailedWriteForgets` | src/SSH2Client.cpp:1686-1699 | a write that fails for another host can lose the entry, and another key is then accepted |
| `HostKeys.NoFileNoMemory` | src/SSH2Client.cpp:1556-1567 | without a file nothing is remembered over any sequence of verifications: a key is accepted exactly under the session-only policy |
| `HostKeys.VerifyWithStore` | src/SSH2Client.cpp:593-649 | with a store that others may change in any way between the calls: an accepted key is the one in the store at that moment, a rejected first use finds another one there, the client itself only ever adds an absent entry, and alone it accepts exactly what the policy says |
| `HostKeys.VerifyBothWays` | src/SSH2Client.cpp:593-649 | a store with the same entries accepts exactly what the file accepts, over any sequence of verifications, and stays equal to it |
| `Reservation.FlagsAgree` | src/SSH2Client.h:595-609 | in every reachable state the reservation flag is set exactly when there is a holder, there is at most one, both flags are never set while the lock is free, and a connect beside a reservation is an unflagged one |
| `Reservation.HolderIsAlone` | src/SSH2Client.h:299-309 | while there is a holder no reservation, connect or disconnect is let through, and it stays the holder until its own operation is closed or takes the reservation over |
| `Reservation.HoldersAfter` | src/SftpPollOperation.cpp:194-197 | finishing or destroying an operation never ends another's reservation |
| `Reservation.ConnectKeepsSession` | src/SSH2Client.h:571-583 | while sshConnect() runs, even where it gives the lock up, its session is the client's, no other thread changes or ends it, and no reservation, connect or disconnect is let through |
| `Reservation.OperationKeepsSession` | src/SSH2Client.h:595-609 | in every run without a risky call, a reserved operation finds its session whenever it goes on; risky are a reservation let through while an earlier sftpConnect(), method or driver is still in its call, and an SFTP method let through on a session that is up while the client is reserved, unless for an operation that is being destroyed and never had one |
| `Reservation.RiskyExactly` | src/SSH2Client.h:595-609 | a step from a reachable state in which every session is in place is risky exactly if some continuation, itself without a risky call, makes an operation lose its session |
| `Reservation.CarefulExactly` | src/SSH2Client.h:595-609 | a run has no risky call exactly if after each of its steps no continuation of this kind loses a session |
| `Reservation.SessionStaysIff` | src/SSH2Client.h:571-583 | over any run a session is still the client's exactly if no step made a session or disconnected, let a disconnect() through, or let a sftpConnect() through on an SFTP session; a lost session never comes back |
| `Reservation.CallFindsSession` | src/SFTPClient.cpp:788-792 | an sftpConnect(), sshConnect() or SFTP method that has given the lock up with its session in place finds it again when it takes the lock back, whatever other threads did, exactly if no step of theirs was one of these |
| `Reservation.SftpConnectCanBeOvertaken` | src/SFTPClient.cpp:788-792 | sftpConnect() sets no flag: a client can be reserved in the middle of it |
| `Reservation.SftpConnectLosesSession` | src/SSH2Client.h:571-583 | such a step, disconnect(), does pass in the middle of sftpConnect(), which then goes on without its session |
| `Reservation.MethodLosesSession` | src/SFTPClient.cpp:1130-1137 | the same in the middle of a stream transfer of an SFTP method |
| `Reservation.OperationLosesSessionToConnect` | src/SFTPClient.cpp:721-724 | the first risky call: a reserved operation loses the session it adopted to the connect it overtook |
| `Reservation.OperationLosesSessionToMethod` | src/SFTPClient.cpp:794-799 | the second risky call: an SFTP method on a session that is up is let in although the client is reserved, and ends the operation's session |
| `Reservation.RunKeepsInv` | src/SSH2Client.h:311-324 | the invariants hold over every interleaving |
| `Descriptor.DescriptorOutlivesSession` | src/SSH2Client.h:257-265 | while a session lives the same descriptor is held for it, the session uses no other number, and nobody else is given the number, with closeIo() at any moment |
| `Descriptor.RunKeepsInv` | src/SSH2Client.cpp:895-903 | the invariant behind it holds over every interleaving of both drivers |
| `Descriptor.NothingLeaks` | src/SSH2Client.h:285-289 | a connection that is over holds nothing |
| `Descriptor.SessionCanLive` | src/SSH2Client.cpp:895-903 | both drivers can get to an established session on the descriptor they hold |
| `Descriptor.CanDisconnectAgain` | src/SSH2Client.cpp:659-710 | from every state in which it can disconnect a connection can get back to holding nothing |
| `Descriptor.NumberCanBeLost` | src/SSH2Client.cpp:895-903 | before the hold the number can already belong to somebody else, which is what the failing hold detects |
| `Lifecycle.LifecycleSafe` | src/SSH2Channel.cpp:31-57 | registry and open handles agree outside of a disconnect, a null session means empty registries, the reference count is one for the object, each child, each operation and a running disconnect, the client is deleted last, every handle is freed once and nothing destroyed is used |
| `Lifecycle.InvKept` | src/SSH2Client.cpp:659-710 | every step keeps this, a destructor looking at its handle without the lock in the middle of a disconnect included |
| `Lifecycle.DestroyKept` | src/SSH2Channel.cpp:38-48 | a child without an open handle can be destroyed at any moment |
| `Lifecycle.CancelKept` | src/SSH2Listener.cpp:57-63 | a listener erases itself while the disconnect iterates over the listeners |
| `Lifecycle.DerefKeeps` | src/SSH2Client.cpp:749-758 | the last reference deletes a client that nothing needs any more |
| `Lifecycle.DanglingEntriesExist` | src/SSH2Client.cpp:670-675 | the registry can hold a destroyed channel while a disconnect closes channels |
| `NoteWalker.NumberEncoded` | debian/tests/test_aot_metadata.py:28-31 | a little-endian number is read as it was written |
| `NoteWalker.ReadNote` | debian/preserve-aot-metadata.py:70-78 | one note is read in bounds and the position advances by at least 12 bytes |
| `NoteWalker.WalkNotes` | debian/preserve-aot-metadata.py:69-78 | the note walk stays in bounds, terminates and returns the records in order |
| `NoteWalker.WalkSerialized` | debian/preserve-aot-metadata.py:66-78 | walking printed notes, 4- or 8-byte aligned, with or without the last padding, returns exactly the metadata among them |
| `NoteWalker.ReadModuleInfo` | debian/preserve-aot-metadata.py:30-81 | the reader stays in bounds and returns the specified result, which on images is what ElfImage.ImageIsRead and TruncatedImage say |
| `ElfImage.FieldAt` | debian/preserve-aot-metadata.py:40-43 | a field is read where the fields printed before it end |
| `ElfImage.ImageIsRead` | debian/preserve-aot-metadata.py:30-81 | from every image in which the headers of a file, printed field by field in the order of the format, and the notes of its segments stand where they say, in both classes, with any gaps and with the number of program headers in the first section header, the reader gets the one record, nothing if there is none, and an error if there are several |
| `ElfImage.TruncatedImage` | debian/preserve-aot-metadata.py:36-65 | an image of which a program header or a part of the notes is cut off is an error, unless not even its identification is left |
| `ElfImage.PrintImage` | debian/preserve-aot-metadata.py:38-61 | the printer puts the headers and segments of a file one after the other, each where the headers say |
| `ElfImage.PrintAndRead` | debian/preserve-aot-metadata.py:30-81 | the reader inverts this printer, for any number of segments of any kind, whenever the values fit in their fields |
| `MetadataCheck.SaveRecords` | debian/preserve-aot-metadata.py:86-92 | an unreadable module is reported before the command, and exactly the modules with a record are saved |
| `MetadataCheck.CheckModule` | debian/preserve-aot-metadata.py:99-109 | a module passes exactly when it is no symlink and has the same record |
| `MetadataCheck.Preserve` | debian/preserve-aot-metadata.py:84-113 | one error for a failed command and one for every module whose record did not survive, also after other errors |
| `MetadataCheck.PreserveModules` | debian/preserve-aot-metadata.py:84-113 | the check succeeds exactly when the command did and every record survived |
| `Poller.SftpPoller.ListFiles` | qlib/SftpPoller.qm:757-800 | the list has exactly the regular files of the directory that the mask means and that are old enough, each once |
| `Poller.SftpPoller.ProcessFile` | qlib/SftpPoller.qm:905-936 | the next file of the list is delivered at most once; an exception before the delivery can be retried, any later one stops polling; with none it is delivered and deleted |
| `Poller.SftpPoller.PollDirectory` | qlib/SftpPoller.qm:896-940 | a pass that returns has delivered exactly the listed files in their order if they were accepted, and nothing otherwise, and has deleted what it delivered; a pass that throws has delivered a beginning of them, and its exception is retried exactly if this is empty |
| `Poller.SftpPoller.RunOnce` | qlib/SftpPoller.qm:893-944 | a poll that returns made one complete pass over each directory in order, and reports whether anything was listed; one that throws made a beginning of them with at most the last pass unfinished; nothing is delivered twice |
| `Poller.SftpPoller.Run` | qlib/SftpPoller.qm:1071-1099 | a run polls at least once if it may run; what it delivers is what its passes say, nothing twice; no pass is unfinished without an exception, and without any every poll covers all directories; an exception that ends it came after a delivery, and every other end leaves no delivered file on the server |
| `Glob.TranslatedStep` | qlib/SftpPoller.qm:664-669 | the three substitutions, one after the other, translate every character once |
| `Glob.TranslationIsCorrect` | qlib/SftpPoller.qm:657-671 | the anchored expression matches exactly the names the glob means |
| `Glob.StarMatchesAll` | qlib/SftpPoller.qm:658-661 | the mask that is dropped means every name |
| `Glob.MaskFilter.SetMask` | qlib/SftpPoller.qm:657-671 | the filter is left without a mask or with the translated one |
| `Glob.MaskFilter.GetFiles` | qlib/SftpPoller.qm:757-772 | the selection is exactly the regular files the glob means, in order |
| `Glob.SelectedExactly` | qlib/SftpPoller.qm:757-772 | a file is selected as often as it is listed if it is regular and the mask means its name, and never otherwise |

## Left out

- libssh2, sockets, name resolution, the sandbox, file permissions and Qore's exceptions are oracles: only what the code
  around them sees is modelled.
- SftpClient.SFTPClient.Read: a server that never sends the rest of a file makes the blocking loops read forever; here such
  a loop ends because the connection breaks when the decisions are used up.
- AuthGuard.AcceptedLogIsGuarded: is about a driver whose connection no other thread touches while it runs code of a host
  key store or an identity provider without the lock. Poll operations are documented to be driven by one thread at a
  time; which calls of other threads can end the session in these windows is stated in Reservation.dfy, on its own model.
- Transfers.RetrieveTo: the stream calls of `get` and `put` are made without the lock; interference by other threads is not
  part of this model, but that it is possible is (Reservation.MethodLosesSession).
- Transfers.GetTextFile: character encodings; the text is a sequence of bytes.
- Drivers.ConnectBothWays: an interrupted driver is compared only as a beginning of the other, and the two are given the same
  server, not the same connection.
- SftpClient.SFTPClient.SshConnectUnlocked: what state a session is in after the provider failed is not claimed, because the
  code leaves it as it is.
- HostKeys.TrustIsSticky: two clients that write the same known_hosts file at the same moment; each verification is one step.
- HostKeys.KnownHostsFile.VerifyHostKey: which entries concern a key is libssh2's rule, taken to be host and key type; the
  matching of ports and of hashed names is not part of this model.
- Reservation.OperationKeepsSession: two threads that drive one operation at a time, against its documentation, may replace
  each other's session; the operation then still works on the client's.
- Reservation.ConnectKeepsSession: channels and port forwarding, which are refused while the flag is set, are not steps.
- Lifecycle.LifecycleSafe: everything done under the lock is one step, except for the disconnect; reads and writes on channels
  are not modelled.
- Poller.SftpPoller.Run: a replaced connection, moving instead of deleting, and files uploaded again under a delivered
  name are not modelled; a run is stopped after finitely many polls. Directories under different names are different.
- Glob.TranslationIsCorrect: masks with other regular expression characters and names with line breaks, for which the
  translation means something else; the case option of the expression.
- ElfImage.PrintAndRead: section contents and the section header table behind its first entry are not printed; the reader
  does not look at them.
- SftpClient.SFTPClient.Authenticate: the settings of a client are constant. `setClientAuthOrder()` and
  `setClientIdentityFallbackPolicy()` are refused only during a flagged connect (src/SSH2Client.h:752-790), so called on a
  reserved client they can change the plan of its operation until the method list has arrived.
- Drivers.Retrieve: changing the working directory of an SFTP session by hand (`chdir()`); a session knows the directory
  the server named, or none.
- Configuration setters that cannot influence the authentication plan, the `.qpp` bindings, the data provider classes,
  channel I/O, permissions and mode strings: they share no state with what is modelled, or only pass values on.
- Thread control of SftpPoller and timeouts as durations are not modelled.
