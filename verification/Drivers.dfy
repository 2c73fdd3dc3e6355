/** Whole runs: a poll operation continued until it is over, and the two connect drivers against the same server. */
module Drivers {
  import opened Ssh2Types
  import opened AuthSemantics
  import opened AuthGuard
  import opened Outside
  import opened SftpClient
  import opened PollOperation
  import AuthPlan
  import AuthTrace

  /** The caller of an operation may abort it. */
  method MayAbort(op: SftpPollOperation) returns (over: bool)
    requires op.Valid() && !IsTerminal(op.state)
    modifies op, op.client
    ensures op.Valid() && (over <==> IsTerminal(op.state)) && (over <==> First(old(op.client.outside).choices))
    ensures !over ==> Passed(old(op.client.outside), op.client.outside)
    ensures |op.client.outside.choices| <= |old(op.client.outside).choices|
    ensures op.data == old(op.data) && (op.handle == null || op.handle == old(op.handle))
  {
    over := op.Asks();
    if over { op.Abort(); }
  }

  /** The caller of an operation may drop its last reference. */
  method MayDestroy(op: SftpPollOperation) returns (over: bool)
    requires op.Valid() && !IsTerminal(op.state)
    modifies op, op.client
    ensures op.Valid() && (over <==> IsTerminal(op.state)) && (over <==> First(old(op.client.outside).choices))
    ensures !over ==> Passed(old(op.client.outside), op.client.outside)
    ensures |op.client.outside.choices| <= |old(op.client.outside).choices|
    ensures op.data == old(op.data) && (op.handle == null || op.handle == old(op.handle))
  {
    over := op.Asks();
    if over { op.Deref(); }
  }

  /** The next call for an operation that waits: its caller may abort it, or drop its last reference, instead of
      continuing it.
   */
  method NextCall(op: SftpPollOperation) returns (wait: bool)
    requires op.Valid() && !IsTerminal(op.state)
    modifies op, op.client, op.data, op.handle
    ensures op.Valid() && (wait <==> !IsTerminal(op.state))
    ensures |op.client.outside.choices| <= |old(op.client.outside).choices|
    ensures wait ==> Fewer(old(op.client.outside), op.client.outside)
    ensures op.data == old(op.data) || fresh(op.data)
    ensures op.handle == null || op.handle == old(op.handle) || fresh(op.handle)
    ensures old(op.client.outside).choices == [] ==> Later(old(op.client.outside), op.client.outside)
  {
    wait := false;
    var over := MayAbort(op);
    if !over { over := MayDestroy(op); }
    if !over { wait := op.ContinuePoll(); }
  }

  /** Continues an operation until it has nothing more to wait for. */
  method RunToEnd(op: SftpPollOperation)
    requires op.Valid() && !IsTerminal(op.state)
    modifies op, op.client, op.data, op.handle
    ensures op.Valid() && IsTerminal(op.state)
    ensures old(op.client.outside).choices == [] ==> Later(old(op.client.outside), op.client.outside)
  {
    var wait := true;
    while wait
      invariant op.Valid() && (wait <==> !IsTerminal(op.state))
      invariant op.data == old(op.data) || fresh(op.data)
      invariant op.handle == null || op.handle == old(op.handle) || fresh(op.handle)
      invariant old(op.client.outside).choices == [] ==> Later(old(op.client.outside), op.client.outside)
      decreases |op.client.outside.choices|, wait
    {
      wait := NextCall(op);
    }
  }

  /** What a whole poll operation returned and left behind, with what the outside world had done before and after it. */
  datatype PollReport = PollReport(
    output: Option<seq<byte>>, path: string, adopted: bool, restarted: bool,
    authenticatedWith: Option<string>, reserved: bool, session: bool, blocking: bool, staleCalls: int,
    before: Record, after: Record)

  /** The run of the plan that the settings and the server's list ask for after the history h. */
  ghost predicate IsRunFrom(run: AuthRun, env: Env, settings: AuthPlan.Settings, memoryKeys: bool, h: Log, after: Log) {
    var ad := AuthPlan.Advertises(run.list);
    && run.list == env.authList(h)
    && AuthPlan.IsPlan(settings, memoryKeys, ad, run.plan)
    && Faithful(run.ending, after, RunPlan(World(env, ad.publickey, memoryKeys, settings.password), run.plan, h))
  }

  /** What a run leaves in the history: every key is one of the settings or was named by the provider immediately
      before, and a run that ended by itself stopped at its first accepted call and reports the method of this call.
   */
  ghost predicate Traced(run: AuthRun, env: Env, settings: AuthPlan.Settings, memoryKeys: bool, h: Log, after: Log) {
    var w := World(env, AuthPlan.Advertises(run.list).publickey, memoryKeys, settings.password);
    && AuthTrace.KeysAreNamed(w, settings, |h|, after)
    && (run.ending.Finished? ==> AuthTrace.UntilLogin(h, Outcome(after, run.ending.status)))
  }

  lemma RunIsTraced(run: AuthRun, env: Env, settings: AuthPlan.Settings, memoryKeys: bool, h: Log, after: Log)
    requires IsRunFrom(run, env, settings, memoryKeys, h, after)
    ensures Traced(run, env, settings, memoryKeys, h, after)
  {
    var ad := AuthPlan.Advertises(run.list);
    var w := World(env, ad.publickey, memoryKeys, settings.password);
    AuthTrace.RunNamesKeys(w, settings, memoryKeys, ad, run.plan, h, after);
    AuthTrace.PlanUntilLogin(w, run.plan, h);
  }

  /** What a report says about the retrieved data: a prefix of the file that the name means in a directory, and the
      whole of it up to the stat size exactly if no read returned nothing.
   */
  predicate Delivered(report: PollReport, env: Env, cwd: string, name: string, run: Option<AuthRun>) {
    report.output.Some? ==>
      && report.path == AbsoluteFilename(cwd, name)
      && report.output.value <= env.files(report.path)
      && |report.output.value| <= env.statSize(report.path)
      && (|report.output.value| == env.statSize(report.path) <==> report.after.emptyReads == report.before.emptyReads)
      && (LogsIn(run) || (run.None? && report.adopted))
      && !Stopped(report.before, report.after) && report.after.readErrors == report.before.readErrors
  }

  /** Nothing was stopped and nothing failed on the connection that was used last. */
  predicate WentSmoothly(report: PollReport) {
    SmoothFrom(report.before, report.after, if report.restarted then report.after.lost else report.before.failures)
  }

  /** Why there may be no data, for an operation that began after the history h: only a connection of its own needs a
      user and an accepted host key.  An adopted session is replaced exactly if it was found lost.
   */
  predicate Excused(report: PollReport, env: Env, settings: AuthPlan.Settings, h: Log, run: Option<AuthRun>) {
    && (run.Some? && run.value.ending.Aborted? ==> Stopped(report.before, report.after))
    && (report.output.None? && WentSmoothly(report) ==>
          if run.Some? then !LogsIn(run)
          else !CanAuthenticate(env, settings, h) && (report.adopted ==> report.restarted))
    && report.after.losses == report.before.losses + Count(report.restarted)
    && (report.restarted ==> report.before.failures < report.after.lost <= report.after.failures)
    && (report.after.starved > report.before.starved ==> |env.files(report.path)| < env.statSize(report.path))
  }

  /** What a report says about the connection that is left; nonBlocking says that the operation found a session in
      non-blocking mode.
   */
  predicate LeftBehind(report: PollReport, nonBlocking: bool, run: Option<AuthRun>) {
    && !report.reserved && (report.restarted ==> report.adopted) && (report.output.Some? ==> report.session)
    && (report.session && !report.blocking ==> nonBlocking && !report.restarted && run.None?)
    && (report.session && LogsIn(run) ==> report.authenticatedWith == Some(run.value.ending.status.reported))
    && report.staleCalls == Count(report.after.readErrors > report.before.readErrors
                                  && report.after.drops > report.before.drops)
  }

  /** The directory in which a relative name is looked up: an SFTP session that was left before it asked for its working
      directory has none.
   */
  function Base(env: Env, nameless: bool): string {
    if nameless then "" else WorkingDirectory(env)
  }

  /** startPollGetFile(): the operation owns the reservation. */
  method StartPollGetFile(client: SFTPClient, path: string) returns (op: SftpPollOperation)
    requires client.Valid() && client.PathKnown() && !client.pollOpInProgress
    modifies client`pollOpInProgress
    ensures fresh(op) && fresh(op.data) && op.Valid() && op.state.Start? && op.client == client && op.path == path
    ensures op.start == client.History() && op.stale == client.staleCalls && op.before == client.outside
    ensures op.hadSession == client.session && op.hadBlocking == client.blocking
    ensures op.nameless == (client.sftp && client.sftpPath == "")
  {
    client.pollOpInProgress := true;
    op := new SftpPollOperation(client, path);
  }

  /** What an operation that is over has to report. */
  method Summary(op: SftpPollOperation, before: Record, stale: nat) returns (report: PollReport)
    requires op.Valid() && IsTerminal(op.state) && op.before == before && op.stale == stale
    ensures Delivered(report, op.client.env, Base(op.client.env, op.nameless && !report.restarted), op.path, op.planned)
    ensures Excused(report, op.client.env, op.client.settings, op.start, op.planned)
    ensures LeftBehind(report, op.hadSession && !op.hadBlocking, op.planned)
    ensures report.before == before && report.after == op.client.outside && Since(report.before, report.after)
    ensures report.session == op.client.session && report.blocking == op.client.blocking
    ensures op.client.staleCalls == stale + report.staleCalls
    ensures report.adopted ==> op.hadSession
    ensures op.hadSession && Smooth(report.before, report.after) ==>
      report.output.Some? && report.adopted && !report.restarted && op.planned.None?
  {
    var client := op.client;
    report := PollReport(op.GetOutput(), op.absPath, op.reusedSession, op.reconnectAttempted,
                         client.authenticatedWith, client.pollOpInProgress, client.session, client.blocking,
                         client.staleCalls - stale, before, client.outside);
  }

  /** A whole poll operation on a client. */
  method Retrieve(client: SFTPClient, path: string) returns (report: PollReport, ghost run: Option<AuthRun>)
    requires client.Valid() && client.PathKnown() && !client.pollOpInProgress
    modifies client
    ensures client.Valid() && client.PathKnown()
    ensures Delivered(report, client.env,
                      Base(client.env, old(client.sftp && client.sftpPath == "") && !report.restarted), path, run)
    ensures Excused(report, client.env, client.settings, old(client.History()), run)
    ensures LeftBehind(report, old(client.session && !client.blocking), run)
    ensures report.before == old(client.outside) && report.after == client.outside && Since(report.before, report.after)
    ensures report.session == client.session && report.blocking == client.blocking
    ensures client.staleCalls == old(client.staleCalls) + report.staleCalls
    ensures run.None? ==> client.History() == old(client.History())
    ensures run.Some? ==> client.IsAuthRun(run.value, old(client.History()))
                          && CanAuthenticate(client.env, client.settings, old(client.History()))
    ensures report.before.choices == [] ==> Later(report.before, report.after)
    ensures report.adopted ==> old(client.session)
    ensures old(client.session) && Smooth(report.before, report.after) ==>
      report.output.Some? && report.adopted && !report.restarted && run.None?
  {
    var staleBefore, before := client.staleCalls, client.outside;
    var op := StartPollGetFile(client, path);
    RunToEnd(op);
    run := op.planned;
    report := Summary(op, before, staleBefore);
  }

  /** A retrieval with a poll operation, under any schedule of suspensions and aborts, on a client that may have been
      connected by the blocking driver before.
   */
  method PollGetFile(env: Env, settings: AuthPlan.Settings, memoryKeys: bool, choices: seq<bool>, path: string,
                     connect: bool)
    returns (report: PollReport, connected: bool, log: Log, start: Log, ghost run: Option<AuthRun>)
    requires AuthPlan.Consistent(settings)
    ensures CallsGuarded(log)
    ensures !connect ==> start == [] && !report.adopted && report.before == Begin(choices)
    ensures run.None? ==> Completed(log) == start
    ensures run.Some? ==> IsRunFrom(run.value, env, settings, memoryKeys, start, Completed(log))
                          && CanAuthenticate(env, settings, start)
                          && Traced(run.value, env, settings, memoryKeys, start, Completed(log))
    ensures Delivered(report, env, WorkingDirectory(env), path, run) && Excused(report, env, settings, start, run)
    ensures connected && Smooth(report.before, report.after) ==> report.output.Some? && run.None?
    ensures LeftBehind(report, connect && !connected, run)
  {
    var client := new SFTPClient(env, settings, memoryKeys, choices);
    connected := false;
    if connect {
      ghost var connectRun;
      connected, connectRun := client.SshConnectUnlocked(0);
    }
    start := client.History();
    report, run := Retrieve(client, path);
    log := client.log;
    AcceptedLogIsGuarded(log);
    if run.Some? { RunIsTraced(run.value, env, settings, memoryKeys, start, Completed(log)); }
  }

  /** Two runs from the same history, by whichever drivers: if both ended by themselves they are the same, down to every
      completed attempt, provider resolution and access check; a run that was aborted is the beginning of the other.
   */
  lemma TwoRunsAgree(env: Env, settings: AuthPlan.Settings, memoryKeys: bool, h: Log,
                     a: AuthRun, afterA: Log, b: AuthRun, afterB: Log)
    requires IsRunFrom(a, env, settings, memoryKeys, h, afterA)
    requires IsRunFrom(b, env, settings, memoryKeys, h, afterB)
    ensures a.list == b.list && a.plan == b.plan
    ensures a.ending.Finished? && b.ending.Finished? ==> a == b && afterA == afterB
    ensures a.ending.Aborted? && b.ending.Finished? ==> afterA <= afterB
    ensures a.ending.Aborted? && b.ending.Aborted? ==> afterA <= afterB || afterB <= afterA
  {
    AuthPlan.UniquePlan(settings, memoryKeys, AuthPlan.Advertises(a.list), a.plan, b.plan);
  }

  /** Both drivers connect to the same server with the same settings, each with its own schedule of EAGAIN results.  If
      neither is interrupted and nothing fails, they do the same, one logs in exactly if the other does, and the file is
      retrieved exactly then.  Whatever interrupts one of them, it has done a beginning of what the other does.
   */
  method ConnectBothWays(env: Env, settings: AuthPlan.Settings, memoryKeys: bool, blockingChoices: seq<bool>,
                         pollChoices: seq<bool>, path: string)
    returns (blockingLog: Log, connected: bool, record: Record, pollLog: Log, report: PollReport,
             ghost b: Option<AuthRun>, ghost p: Option<AuthRun>)
    requires AuthPlan.Consistent(settings)
    ensures CallsGuarded(blockingLog) && CallsGuarded(pollLog)
    ensures b.Some? ==> Traced(b.value, env, settings, memoryKeys, [], Completed(blockingLog))
    ensures p.Some? ==> Traced(p.value, env, settings, memoryKeys, [], Completed(pollLog))
    ensures report.before == Begin(pollChoices)
    ensures Undisturbed(Begin(blockingChoices), record) && Smooth(report.before, report.after) ==>
      && b == p && Completed(blockingLog) == Completed(pollLog)
      && (connected <==> LogsIn(p)) && (connected <==> report.output.Some?)
      && (b.Some? <==> CanAuthenticate(env, settings, []))
    ensures b.Some? && record.interruptions == 0 ==> Completed(pollLog) <= Completed(blockingLog)
    ensures p.Some? && !Stopped(report.before, report.after) ==> Completed(blockingLog) <= Completed(pollLog)
    ensures connected && p.Some? && !Stopped(report.before, report.after) ==> LogsIn(p)
    ensures report.output.Some? && b.Some? && record.interruptions == 0 ==> connected && b == p
  {
    var client := new SFTPClient(env, settings, memoryKeys, blockingChoices);
    connected, b := client.SshConnectUnlocked(0);
    blockingLog, record := client.log, client.outside;
    AcceptedLogIsGuarded(blockingLog);
    if b.Some? { RunIsTraced(b.value, env, settings, memoryKeys, [], Completed(blockingLog)); }
    var start, before;
    report, before, pollLog, start, p := PollGetFile(env, settings, memoryKeys, pollChoices, path, false);
    if b.Some? && p.Some? {
      TwoRunsAgree(env, settings, memoryKeys, [], b.value, Completed(blockingLog), p.value, Completed(pollLog));
      TwoRunsAgree(env, settings, memoryKeys, [], p.value, Completed(pollLog), b.value, Completed(blockingLog));
    }
  }

  // ---- a run in which the agent is released after its session --------------------------------------------------

  /** A server that takes any login, with an agent that holds one identity. */
  function EasyEnv(methods: string): Env {
    Env(h => true, h => Some(methods), (h, a) => true, (h, a) => true, h => Some(1), (h, k) => true, h => None,
        (h, i) => MaterialException, "/home", p => 1, p => [0])
  }

  lemma AgentPlan(ad: AuthPlan.Advertised, plan: seq<Attempt>)
    requires ad.publickey && AuthPlan.IsPlan(AuthPlan.Initial("user", ""), true, ad, plan)
    ensures plan == [AuthPlan.Bare(Agent)]
  {
    var s, agent := AuthPlan.Initial("user", ""), AuthPlan.Bare(Agent);
    forall a
      ensures a in [agent] <==> AuthPlan.Offered(s, true, ad, a)
    {
      assert AuthPlan.Offered(s, true, ad, agent);
    }
    AuthPlan.UniquePlan(s, true, ad, plan, [agent]);
  }

  /** The ninth decision is that the first call of the agent must be repeated, the tenth that the wait for it fails. */
  function LateSchedule(): (choices: seq<bool>)
    ensures WaitFails(choices, 8)
  {
    SilenceIsCalm(8, 8, [true, true]);
    assert Silence(0) + [true, true] == [true, true];
    Silence(8) + [true, true]
  }

  lemma AgentOnly(plan: seq<Attempt>)
    requires AuthPlan.IsPlan(AuthPlan.Initial("user", ""), true, AuthPlan.Advertises(Some("publickey")), plan)
    ensures plan == [AuthPlan.Bare(Agent)]
  {
    assert OccursAt("publickey", "publickey", 0);
    AgentPlan(AuthPlan.Advertises(Some("publickey")), plan);
  }

  /** With this schedule the blocking connect releases the agent after its session. */
  method AgentReleasedLate() returns (client: SFTPClient)
    ensures client.staleCalls == 1 && ClosedAwaitingAgent(0, client.log)
  {
    client := new SFTPClient(EasyEnv("publickey"), AuthPlan.Initial("user", ""), true, LateSchedule());
    assert CanAuthenticate(client.env, client.settings, []) && client.HasIdentity([]);
    var ok; ghost var run;
    ok, run := client.SshConnectUnlocked(0);
    assert run.Some?;
    AgentOnly(run.value.plan);
  }
}
