/** Transfers over connections of their own: the ways to download a file deliver the same bytes, and what was uploaded
    is what a later connection downloads; a client from its configuration to its login.
 */
module EndToEnd {
  import opened Ssh2Types
  import opened AuthSemantics
  import opened AuthGuard
  import opened Outside
  import opened SftpClient
  import opened PollOperation
  import opened Transfers
  import opened Drivers
  import AuthPlan

  /** The remote path a name means to a client that was just connected. */
  function Resolved(env: Env, name: string): string {
    AbsoluteFilename(WorkingDirectory(env), name)
  }

  /** A poll operation delivers what the blocking methods deliver exactly if no read returned nothing. */
  lemma PollDeliversDownload(report: PollReport, env: Env, name: string, run: Option<AuthRun>)
    requires Delivered(report, env, WorkingDirectory(env), name, run) && report.output.Some?
    ensures report.output.value <= Download(env, Resolved(env, name))
    ensures report.after.emptyReads == report.before.emptyReads
            <==> SizeHolds(env, Resolved(env, name)) && report.output.value == Download(env, Resolved(env, name))
  {
    assert report.output.value == env.files(report.path)[..|report.output.value|];
  }

  datatype Way = ToBinary | ToText | ToSink

  /** What one blocking download did: the content, the record of the outside world and the log. */
  datatype DownloadReport = DownloadReport(content: Option<seq<byte>>, record: Record, localFailure: bool, log: Log)

  /** Why a download may deliver: the run has logged in.  Why it may not: only for a reason. */
  ghost predicate IsDownload(d: DownloadReport, env: Env, settings: AuthPlan.Settings, memoryKeys: bool,
                             choices: seq<bool>, run: Option<AuthRun>) {
    && (d.content.Some? ==> LogsIn(run))
    && (run.Some? ==> IsRunFrom(run.value, env, settings, memoryKeys, [], Completed(d.log)))
    && (run.Some? && run.value.ending.Aborted? ==> d.record.interruptions > 0)
    && (d.content.None? && Smooth(Begin(choices), d.record) && !d.localFailure ==>
          if run.Some? then !LogsIn(run) else !CanAuthenticate(env, settings, []))
    && (run.Some? ==> CanAuthenticate(env, settings, []))
  }

  /** One blocking download on a connected client. */
  method DownloadTo(client: SFTPClient, file: string, way: Way) returns (data: Option<seq<byte>>, localFailure: bool)
    requires Usable(client)
    modifies client
    ensures LeavesClean(client)
    ensures data.Some? ==> SizeHolds(client.env, AbsoluteFilename(client.sftpPath, file))
                           && data.value == Download(client.env, AbsoluteFilename(client.sftpPath, file))
    ensures data.None? ==> !Smooth(old(client.outside), client.outside) || localFailure
  {
    localFailure := false;
    match way {
      case ToBinary => data := GetFile(client, file);
      case ToText => data := GetTextFile(client, file);
      case ToSink =>
        var sink := new Sink();
        var count := RetrieveTo(client, file, sink);
        localFailure := sink.broken;
        ghost var path := AbsoluteFilename(client.sftpPath, file);
        assert [] + Download(client.env, path) == Download(client.env, path);
        data := if count.Some? then Some(sink.content) else None;
    }
  }

  /** One blocking download over a connection of its own. */
  method DownloadBlocking(env: Env, settings: AuthPlan.Settings, memoryKeys: bool, choices: seq<bool>, file: string,
                          way: Way)
    returns (d: DownloadReport, ghost run: Option<AuthRun>)
    requires AuthPlan.Consistent(settings)
    ensures d.content.Some? ==> SizeHolds(env, Resolved(env, file))
                                && d.content.value == Download(env, Resolved(env, file))
    ensures IsDownload(d, env, settings, memoryKeys, choices, run)
  {
    var client := new SFTPClient(env, settings, memoryKeys, choices);
    var ok;
    ok, run := SftpConnectUnlocked(client, 0);
    if !ok { return DownloadReport(None, client.outside, false, client.log), run; }
    var data, localFailure := DownloadTo(client, file, way);
    d := DownloadReport(data, client.outside, localFailure, client.log);
  }

  /** However the server splits the file and whenever it makes a client wait, any two downloads of the same remote file
      deliver the same bytes: two blocking ones, or a blocking one and a poll operation exactly if none of its reads
      returned nothing.  If nothing was interrupted and nothing failed, one of them delivers exactly if the other does.
   */
  method DownloadBothWays(env: Env, settings: AuthPlan.Settings, memoryKeys: bool, choicesA: seq<bool>,
                          choicesB: seq<bool>, choicesC: seq<bool>, file: string, wayA: Way, wayB: Way)
    returns (a: DownloadReport, b: DownloadReport, report: PollReport)
    requires AuthPlan.Consistent(settings)
    ensures a.content.Some? && b.content.Some? ==> a.content == b.content
    ensures a.content.Some? && report.output.Some? ==>
      && report.output.value <= a.content.value
      && (report.output == a.content <==> report.after.emptyReads == report.before.emptyReads)
    ensures Smooth(Begin(choicesA), a.record) && Smooth(Begin(choicesB), b.record)
            && !a.localFailure && !b.localFailure ==>
      (a.content.Some? <==> b.content.Some?)
    ensures Smooth(Begin(choicesA), a.record) && Smooth(report.before, report.after) && !a.localFailure ==>
      (a.content.Some? <==> report.output.Some?)
  {
    ghost var runA, runB, runC;
    a, runA := DownloadBlocking(env, settings, memoryKeys, choicesA, file, wayA);
    b, runB := DownloadBlocking(env, settings, memoryKeys, choicesB, file, wayB);
    var connected, log, start;
    report, connected, log, start, runC := PollGetFile(env, settings, memoryKeys, choicesC, file, false);
    if report.output.Some? { PollDeliversDownload(report, env, file, runC); }
    if runA.Some? && runB.Some? {
      TwoRunsAgree(env, settings, memoryKeys, [], runA.value, Completed(a.log), runB.value, Completed(b.log));
    }
    if runA.Some? && runC.Some? {
      TwoRunsAgree(env, settings, memoryKeys, [], runA.value, Completed(a.log), runC.value, Completed(log));
    }
  }

  function SizeAfter(env: Env, remote: map<string, seq<byte>>, path: string): nat {
    if path in remote then |remote[path]| else env.statSize(path)
  }

  /** The server as a later connection finds it. */
  function Updated(env: Env, remote: map<string, seq<byte>>): Env {
    env.(files := p => if p in remote then remote[p] else env.files(p),
         statSize := p => SizeAfter(env, remote, p))
  }

  /** What was put is what is got by another connection, and by a poll operation exactly if none of its reads returned
      nothing; every other file is as it was.  A put that is neither interrupted nor fails succeeds if the login does.
   */
  method PutThenGet(env: Env, settings: AuthPlan.Settings, memoryKeys: bool, choices: seq<bool>, later: seq<bool>,
                    data: array<byte>, file: string, way: Way)
    returns (put: bool, record: Record, laterEnv: Env, got: DownloadReport, report: PollReport,
             ghost run: Option<AuthRun>)
    requires AuthPlan.Consistent(settings)
    ensures put && got.content.Some? ==> got.content.value == data[..]
    ensures put && report.output.Some? ==>
      && report.output.value <= data[..]
      && (report.output.value == data[..] <==> report.after.emptyReads == report.before.emptyReads)
    ensures put ==> forall p | p != Resolved(env, file) :: laterEnv.files(p) == env.files(p)
    ensures !put ==> laterEnv == env
    ensures Smooth(Begin(choices), record) && LogsIn(run) ==> put
  {
    var client := new SFTPClient(env, settings, memoryKeys, choices);
    put, laterEnv := false, env;
    var ok;
    ok, run := EnsureConnected(client);
    if ok {
      var count := PutFile(client, data, file);
      if count.Some? { put, laterEnv := true, Updated(env, client.remote); }
    }
    record := client.outside;
    ghost var gotRun, pollRun;
    got, gotRun := DownloadBlocking(laterEnv, settings, memoryKeys, later, file, way);
    var connected, log, start;
    report, connected, log, start, pollRun := PollGetFile(laterEnv, settings, memoryKeys, later, file, false);
    if report.output.Some? { PollDeliversDownload(report, laterEnv, file, pollRun); }
  }

  // ---- from the configuration to the login ---------------------------------------------------------------------

  /** A client is configured through its constructor and setters, then connected: the run executes the one plan that the
      settings the setters left and the methods of the server ask for, which has the shape the policies allow.
   */
  method ConfigureAndConnect(user: string, password: string, account: Option<AuthPlan.Account>, filesystem: bool,
                             privOk: bool, pubOk: bool, changes: seq<AuthPlan.Change>, memoryKeys: bool, env: Env,
                             choices: seq<bool>)
    returns (settings: AuthPlan.Settings, ok: bool, log: Log, ghost run: Option<AuthRun>)
    ensures settings == AuthPlan.AllChanged(
      AuthPlan.Discovered(AuthPlan.Initial(user, password), account, filesystem, privOk, pubOk), changes)
    ensures run.Some? ==> IsRunFrom(run.value, env, settings, memoryKeys, [], Completed(log))
                          && Traced(run.value, env, settings, memoryKeys, [], Completed(log))
    ensures run.Some? ==>
      && (settings.providerConfigured <==> exists i | 0 <= i < |run.value.plan| :: run.value.plan[i].kind.Provider?)
      && forall i, j | 0 <= i < j < |run.value.plan| :: run.value.plan[i].kind != run.value.plan[j].kind
    ensures ok <==> LogsIn(run)
    ensures CallsGuarded(log)
  {
    var config := new AuthPlan.Configuration(user, password, account, filesystem, privOk, pubOk);
    config.ApplyAll(changes);
    settings := config.settings;
    var client := new SFTPClient(env, settings, memoryKeys, choices);
    ok, run := client.SshConnectUnlocked(0);
    log := client.log;
    AcceptedLogIsGuarded(log);
    if run.Some? { RunIsTraced(run.value, env, settings, memoryKeys, [], Completed(log)); }
    if run.Some? { AuthPlan.PlanShape(settings, memoryKeys, AuthPlan.Advertises(run.value.list), run.value.plan); }
  }

  // ---- a run in which a freed handle is used -------------------------------------------------------------------

  lemma PasswordPlan(ad: AuthPlan.Advertised, plan: seq<Attempt>)
    requires ad.password && !ad.publickey && !ad.keyboardInteractive
    requires AuthPlan.IsPlan(AuthPlan.Initial("user", "secret"), true, ad, plan)
    ensures plan == [AuthPlan.Bare(Password)]
  {
    var s, password := AuthPlan.Initial("user", "secret"), AuthPlan.Bare(Password);
    forall a
      ensures a in [password] <==> AuthPlan.Offered(s, true, ad, a)
    {
      assert AuthPlan.Offered(s, true, ad, password);
    }
    AuthPlan.UniquePlan(s, true, ad, plan, [password]);
  }

  lemma OnlyPassword(ad: AuthPlan.Advertised)
    requires ad == AuthPlan.Advertises(Some("password"))
    ensures ad.password && !ad.publickey && !ad.keyboardInteractive
  {
    assert OccursAt("password", "password", 0);
    assert !IsSubstring("publickey", "password") && !IsSubstring("keyboard-interactive", "password");
  }

  lemma PasswordLogsIn(w: World, h: Log)
    requires w.env == EasyEnv("password")
    ensures RunPlan(w, [AuthPlan.Bare(Password)], h).status.LoggedIn?
  {
    assert RunAttempt(w, AuthPlan.Bare(Password), h) == RunCall(w, AuthPlan.Bare(Password), h);
  }

  /** A client of a server that takes any password, connected by the blocking driver. */
  method ConnectedClient() returns (client: SFTPClient)
    ensures fresh(client) && Usable(client) && client.PathKnown() && !client.pollOpInProgress && client.staleCalls == 0
    ensures client.outside.choices == [] && client.env == EasyEnv("password")
    ensures client.settings == AuthPlan.Initial("user", "secret") && client.memoryKeys
  {
    client := new SFTPClient(EasyEnv("password"), AuthPlan.Initial("user", "secret"), true, []);
    var ok; ghost var run;
    ok, run := SftpConnectUnlocked(client, 0);
    var ad := AuthPlan.Advertises(Some("password"));
    OnlyPassword(ad);
    PasswordPlan(ad, run.value.plan);
    PasswordLogsIn(World(client.env, ad.publickey, true, "secret"), []);
    assert LogsIn(run);
  }

  /** The same client, reserved for a poll operation, when the outside world has more decisions to make. */
  method ReservedClient(choices: seq<bool>) returns (client: SFTPClient)
    ensures fresh(client) && Usable(client) && client.PathKnown() && client.pollOpInProgress && client.staleCalls == 0
    ensures client.outside.choices == choices && client.env == EasyEnv("password")
    ensures client.settings == AuthPlan.Initial("user", "secret") && client.memoryKeys
  {
    client := ConnectedClient();
    client.outside := client.outside.(choices := choices);
    client.pollOpInProgress := true;
  }

  /** The stages of an operation on a connected session up to its first read, when no call must be repeated or fails. */
  method PollToRead(client: SFTPClient) returns (op: SftpPollOperation)
    requires Usable(client) && client.PathKnown() && client.pollOpInProgress && Calm(client.outside.choices, 5)
    requires client.env == EasyEnv("password")
    modifies client
    ensures fresh(op) && op.client == client && op.Valid() && op.state.Read? && op.bytesRead < op.fileSize
    ensures fresh(op.data) && fresh(op.handle) && client.staleCalls == old(client.staleCalls)
    ensures client.outside.choices == Skip(old(client.outside).choices, 5)
  {
    op := new SftpPollOperation(client, "file");
    op.HandleStart();
    var wait := op.HandleStat();
    wait := op.HandleOpen();
  }

  lemma FailsThenYes(choices: seq<bool>)
    requires choices == Silence(1) + [true, true]
    ensures FailsAndYes(choices) && Skip(choices, 3) == []
  {
    assert choices == [false, true, true];
    assert Rest(Rest(choices)) == Skip(Rest(choices), 1) == Skip(choices, 2);
  }

  /** A poll operation on a session of the blocking driver: its first read fails for good, and the report of the error
      finds the connection readable and drops it, before the handle is closed.
   */
  method FreedHandleIsUsed() returns (client: SFTPClient)
    ensures client.staleCalls == 1
  {
    client := ReservedClient(Silence(6) + [true, true]);
    SilenceIsCalm(5, 6, [true, true]);
    var op := PollToRead(client);
    FailsThenYes(client.outside.choices);
    var _ := op.HandleRead();
  }

  // ---- a run in which a dead session is replaced ---------------------------------------------------------------

  /** On a server that takes the password, the plan's run logs in however much of it was done. */
  lemma RunLogsIn(op: SftpPollOperation)
    requires op.client.env == EasyEnv("password") && op.client.memoryKeys
    requires op.client.settings == AuthPlan.Initial("user", "secret")
    requires op.planned.Some? && op.client.IsAuthRun(op.planned.value, op.start) && op.planned.value.ending.Finished?
    ensures LogsIn(op.planned)
  {
    var ad := AuthPlan.Advertises(Some("password"));
    OnlyPassword(ad);
    PasswordPlan(ad, op.planned.value.plan);
    PasswordLogsIn(World(op.client.env, ad.publickey, true, "secret"), op.start);
  }

  /** From a restart on, when nothing more is decided against it, an operation on this server delivers. */
  method DeliverAfterRestart(op: SftpPollOperation)
    requires op.Valid() && op.Restarted([])
    requires op.client.env == EasyEnv("password") && op.client.memoryKeys
    requires op.client.settings == AuthPlan.Initial("user", "secret")
    modifies op, op.client, op.data, op.handle
    ensures op.bytesRead <= op.data.Length && op.GetOutput() == Some([0])
    ensures op.reusedSession && op.reconnectAttempted && op.client.session
  {
    RunToEnd(op);
    assert op.OnRecord();
    if op.planned.Some? && op.planned.value.ending.Finished? { RunLogsIn(op); }
    assert op.state.Done?;
    assert op.data[..op.bytesRead] == [0];
  }

  /** The stages up to the restart. */
  method LoseSession(client: SFTPClient) returns (op: SftpPollOperation)
    requires Usable(client) && client.PathKnown() && client.pollOpInProgress
    requires Calm(client.outside.choices, 1) && Rest(client.outside.choices) == Silence(1) + [true, true]
    modifies client
    ensures fresh(op) && fresh(op.data) && op.client == client && op.Valid() && op.Restarted([])
  {
    FailsThenYes(Silence(1) + [true, true]);
    op := new SftpPollOperation(client, "file");
    op.HandleStart();
    var _ := op.HandleStat();
  }

  /** The stat of an adopted session fails because its connection is dead: the operation connects again, logs in and
      delivers the file.
   */
  method LostSessionIsReplaced() returns (op: SftpPollOperation)
    ensures op.bytesRead <= op.data.Length && op.GetOutput() == Some([0])
    ensures op.reusedSession && op.reconnectAttempted && op.client.session
  {
    var client := ReservedClient(Silence(2) + [true, true]);
    SilenceIsCalm(1, 2, [true, true]);
    op := LoseSession(client);
    DeliverAfterRestart(op);
  }

  // ---- a name that changes its meaning -------------------------------------------------------------------------

  /** Whenever an operation is destroyed while it asks for the working directory, it leaves its SFTP session behind, and
      the next one on this session looks a relative name up in the root directory.
   */
  method NameChangesItsMeaning(op: SftpPollOperation, name: string)
    returns (report: PollReport, ghost run: Option<AuthRun>)
    requires op.Valid() && op.state.RealPath?
    modifies op, op.client
    ensures report.output.Some? && !report.restarted ==> report.path == AbsoluteFilename("", name)
    ensures Smooth(report.before, report.after) ==> report.output.Some? && !report.restarted
  {
    op.Deref();
    report, run := Retrieve(op.client, name);
  }
}
