/** The blocking transfers of SFTPClient (src/SFTPClient.cpp), with their waits, error reports and cleanup. */
module Transfers {
  import opened Ssh2Types
  import opened AuthGuard
  import opened Outside
  import opened SftpClient

  /** QSSH2_BUFSIZE */
  const BUFSIZE := 32768

  /** The local end of a download: a file or a stream that takes data until it fails. */
  class Sink {
    var content: seq<byte>
    var broken: bool

    constructor ()
      ensures content == [] && !broken
    {
      content, broken := [], false;
    }

    /** Opening the local file, which the sandbox may deny. */
    method Open() returns (failed: bool)
      modifies this
      ensures content == old(content) && broken == (old(broken) || failed)
    {
      failed := *;
      if failed { broken := true; }
    }

    method Write(buf: array<byte>, n: nat) returns (failed: bool)
      requires n <= buf.Length
      modifies this
      ensures content == (if failed then old(content) else old(content) + buf[..n]) && broken == (old(broken) || failed)
    {
      failed := *;
      if failed { broken := true; } else { content := content + buf[..n]; }
    }
  }

  /** The local end of an upload: a file or a stream that is read from its start. */
  class Source {
    const content: seq<byte>
    var position: nat
    var broken: bool

    ghost predicate Valid()
      reads this
    {
      position <= |content|
    }

    constructor (content: seq<byte>)
      ensures this.content == content && position == 0 && Valid() && !broken
    {
      this.content, position, broken := content, 0, false;
    }

    /** Puts at most n bytes into buf; nothing is read only at the end. */
    method Read(buf: array<byte>, n: nat) returns (failed: bool, k: nat)
      requires Valid() && 0 < n <= buf.Length
      modifies this, buf
      ensures Valid() && position == old(position) + k && k <= n && (failed ==> k == 0)
      ensures broken == (old(broken) || failed)
      ensures !failed ==> (k == 0 <==> old(position) == |content|) && buf[..k] == content[old(position)..position]
    {
      failed := *;
      k := 0;
      if failed {
        broken := true;
        return;
      }
      var room := |content| - position;
      var most := if n < room then n else room;
      var wanted: int := *;
      k := if 1 <= wanted <= most then wanted else most;
      Copy(buf, 0, content[position..position + k]);
      position := position + k;
    }
  }

  /** A client that an SFTP operation can use. */
  ghost predicate Usable(client: SFTPClient)
    reads client
  {
    client.Valid() && client.session && client.sftp
  }

  /** While an operation is in progress the session is in non-blocking mode, so that every wait has a timeout. */
  ghost predicate InUse(client: SFTPClient)
    reads client
  {
    Usable(client) && !client.blocking
  }

  ghost function Without(handles: set<RemoteHandle>, h: RemoteHandle?): set<RemoteHandle> {
    if h == null then handles else handles - {h}
  }

  /** A connection is given up only after something was interrupted or has failed, and nothing else is logged. */
  twostate predicate ConnectionStays(client: SFTPClient)
    reads client
  {
    && client.log == (if client.session then old(client.log) else old(client.log) + [SessionClosed])
    && (!client.session ==> !Smooth(old(client.outside), client.outside))
  }

  /** What every step of an operation keeps: nothing freed was used, and the helper's handle is either still open or
      gone, alone or, for a recorded reason, together with the connection.
   */
  twostate predicate Keeps(qh: QSftpHelper)
    reads qh, qh.client
  {
    var client := qh.client;
    && client.Valid() && client.staleCalls == old(client.staleCalls) && Later(old(client.outside), client.outside)
    && client.History() == old(client.History()) && client.sftpPath == old(client.sftpPath)
    && client.pollOpInProgress == old(client.pollOpInProgress) && ConnectionStays(client)
    && ((InUse(client) && qh.handle == old(qh.handle) && client.openHandles == old(client.openHandles))
        || (qh.handle == null && client.Disconnected())
        || (qh.handle == null && InUse(client)
            && client.openHandles == Without(old(client.openHandles), old(qh.handle))))
  }

  /** Nothing but the record, an open file and a buffer has changed. */
  twostate predicate StillOpen(qh: QSftpHelper)
    reads qh, qh.client
  {
    var client := qh.client;
    && client.staleCalls == old(client.staleCalls) && Later(old(client.outside), client.outside)
    && client.log == old(client.log) && client.sftpPath == old(client.sftpPath)
    && client.pollOpInProgress == old(client.pollOpInProgress) && qh.handle == old(qh.handle)
    && client.openHandles == old(client.openHandles)
  }

  /** What a whole operation leaves behind: no handle of its own is open, no freed handle was used, and the connection
      is usable in blocking mode, or gone for a recorded reason.
   */
  twostate predicate LeavesClean(client: SFTPClient)
    reads client
  {
    && client.Valid() && client.staleCalls == old(client.staleCalls) && Later(old(client.outside), client.outside)
    && client.History() == old(client.History()) && client.sftpPath == old(client.sftpPath)
    && client.pollOpInProgress == old(client.pollOpInProgress) && ConnectionStays(client)
    && (client.Disconnected() || (Usable(client) && client.blocking && client.openHandles == old(client.openHandles)))
  }

  /** The helper holds the handle of an open remote file. */
  ghost predicate Holds(qh: QSftpHelper)
    reads qh, qh.client
  {
    InUse(qh.client) && qh.handle != null && qh.handle in qh.client.openHandles
  }

  // ---- the steps of the operations -----------------------------------------------------------------------------

  /** The stat loop. */
  method StatFile(qh: QSftpHelper, path: string) returns (size: Option<nat>)
    requires InUse(qh.client) && qh.handle == null
    modifies qh, qh.client
    ensures Keeps(qh) && qh.handle == null && qh.client.remote == old(qh.client.remote)
    ensures size.Some? ==> InUse(qh.client) && size.value == qh.client.env.statSize(path)
    ensures size.None? ==> !Smooth(old(qh.client.outside), qh.client.outside)
  {
    var client := qh.client;
    var again;
    again, size := client.Stat(path);
    while again
      invariant InUse(client) && Keeps(qh) && qh.handle == null && client.remote == old(client.remote)
      invariant size.Some? ==> size.value == client.env.statSize(path)
      invariant !again && size.None? ==> !Smooth(old(client.outside), client.outside)
      decreases |client.outside.choices|, again
    {
      var failed := qh.WaitSocket();
      if failed { return None; }
      again, size := client.Stat(path);
    }
    if size.None? { qh.Err(); }
  }

  /** The open loop; a null handle without a failed wait is an error. */
  method OpenLoop(qh: QSftpHelper, path: string, write: bool) returns (failed: bool, h: RemoteHandle?)
    requires InUse(qh.client) && qh.handle == null
    modifies qh, qh.client
    ensures failed ==> h == null
    ensures h == null ==>
      && Keeps(qh) && qh.handle == null && qh.client.remote == old(qh.client.remote)
      && !Smooth(old(qh.client.outside), qh.client.outside) && (!failed ==> InUse(qh.client))
    ensures h != null ==>
      && InUse(qh.client) && qh.handle == null && fresh(h) && qh.client.openHandles == old(qh.client.openHandles) + {h}
      && h.path == path && h.offset == 0 && h.content == (if write then [] else qh.client.env.files(path))
      && qh.client.remote == (if write then old(qh.client.remote)[path := []] else old(qh.client.remote))
    ensures h != null ==>
      && qh.client.staleCalls == old(qh.client.staleCalls) && Later(old(qh.client.outside), qh.client.outside)
      && qh.client.log == old(qh.client.log) && qh.client.sftpPath == old(qh.client.sftpPath)
      && qh.client.pollOpInProgress == old(qh.client.pollOpInProgress)
  {
    var client := qh.client;
    failed := false;
    var again;
    again, h := client.Open(path, write);
    while again
      invariant InUse(client) && qh.handle == null && (again ==> h == null)
      invariant !again && h == null ==> !Smooth(old(client.outside), client.outside)
      invariant h == null ==> client.remote == old(client.remote) && client.openHandles == old(client.openHandles)
      invariant h != null ==>
        && fresh(h) && client.openHandles == old(client.openHandles) + {h}
        && h.path == path && h.offset == 0 && h.content == (if write then [] else client.env.files(path))
        && client.remote == (if write then old(client.remote)[path := []] else old(client.remote))
      invariant client.staleCalls == old(client.staleCalls) && Later(old(client.outside), client.outside)
      invariant client.log == old(client.log) && client.sftpPath == old(client.sftpPath)
      invariant client.pollOpInProgress == old(client.pollOpInProgress)
      decreases |client.outside.choices|, again
    {
      failed := qh.WaitSocket();
      if failed { return; }
      again, h := client.Open(path, write);
    }
  }

  /** Opens the remote file for the helper, or reports an error. */
  method OpenFile(qh: QSftpHelper, path: string, write: bool) returns (ok: bool)
    requires InUse(qh.client) && qh.handle == null
    modifies qh, qh.client
    ensures !ok ==> Keeps(qh) && qh.handle == null && qh.client.remote == old(qh.client.remote)
                    && !Smooth(old(qh.client.outside), qh.client.outside)
    ensures ok ==>
      && Holds(qh) && fresh(qh.handle) && qh.client.openHandles == old(qh.client.openHandles) + {qh.handle}
      && qh.handle.path == path && qh.handle.offset == 0
      && qh.handle.content == (if write then [] else qh.client.env.files(path))
      && qh.client.remote == (if write then old(qh.client.remote)[path := []] else old(qh.client.remote))
    ensures ok ==>
      && qh.client.staleCalls == old(qh.client.staleCalls) && Later(old(qh.client.outside), qh.client.outside)
      && qh.client.log == old(qh.client.log) && qh.client.sftpPath == old(qh.client.sftpPath)
      && qh.client.pollOpInProgress == old(qh.client.pollOpInProgress)
  {
    var failed, h := OpenLoop(qh, path, write);
    if failed { return false; }
    qh.Assign(h);
    ok := h != null;
    if !ok { qh.Err(); }
  }

  /** The read loop; a negative result without a failed wait is an error. */
  method ReadLoop(qh: QSftpHelper, buf: array<byte>, at: nat, n: nat) returns (failed: bool, rc: int)
    requires Holds(qh) && 0 < n && at + n <= buf.Length && qh.handle.offset <= |qh.handle.content|
    modifies qh, qh.client, qh.handle, buf
    ensures Keeps(qh) && qh.client.remote == old(qh.client.remote) && (failed ==> qh.handle == null)
    ensures !failed ==> Holds(qh) && qh.handle == old(qh.handle)
    ensures failed || rc < 0 ==> !Smooth(old(qh.client.outside), qh.client.outside)
    ensures !failed && rc >= 0 ==>
      && rc <= n && qh.handle.offset == old(qh.handle.offset) + rc <= |qh.handle.content|
      && buf[at..at + rc] == qh.handle.content[old(qh.handle.offset)..qh.handle.offset]
      && buf[..at] == old(buf[..at]) && buf[at + rc..] == old(buf[at + rc..])
    ensures !failed && rc == 0 ==> Fewer(old(qh.client.outside), qh.client.outside)
  {
    var client, h := qh.client, qh.handle;
    failed := false;
    rc := client.Read(h, buf, at, n);
    while rc == EAGAIN
      invariant Holds(qh) && StillOpen(qh) && client.remote == old(client.remote)
      invariant rc < 0 ==> h.offset == old(h.offset) && buf[..] == old(buf[..])
      invariant rc >= 0 ==>
        && rc <= n && h.offset == old(h.offset) + rc <= |h.content|
        && buf[at..at + rc] == h.content[old(h.offset)..h.offset]
        && buf[..at] == old(buf[..at]) && buf[at + rc..] == old(buf[at + rc..])
      invariant rc == 0 ==> Fewer(old(client.outside), client.outside)
      invariant rc < 0 && rc != EAGAIN ==> !Smooth(old(client.outside), client.outside)
      decreases |client.outside.choices|, rc == EAGAIN
    {
      failed := qh.WaitSocket();
      if failed { return; }
      rc := client.Read(h, buf, at, n);
    }
  }

  /** Repeats a read until it completes; after any failure the handle is closed. */
  method ReadSome(qh: QSftpHelper, buf: array<byte>, at: nat, n: nat) returns (rc: int)
    requires Holds(qh) && 0 < n && at + n <= buf.Length && qh.handle.offset <= |qh.handle.content|
    modifies qh, qh.client, qh.handle, buf
    ensures Keeps(qh) && qh.client.remote == old(qh.client.remote)
    ensures rc < 0 ==> qh.handle == null && !Smooth(old(qh.client.outside), qh.client.outside)
    ensures rc >= 0 ==>
      && Holds(qh) && qh.handle == old(qh.handle)
      && rc <= n && qh.handle.offset == old(qh.handle.offset) + rc <= |qh.handle.content|
      && buf[at..at + rc] == qh.handle.content[old(qh.handle.offset)..qh.handle.offset]
      && buf[..at] == old(buf[..at]) && buf[at + rc..] == old(buf[at + rc..])
    ensures rc == 0 ==> Fewer(old(qh.client.outside), qh.client.outside)
  {
    var failed;
    failed, rc := ReadLoop(qh, buf, at, n);
    if failed { return -1; }
    if rc < 0 { qh.Err(); }
  }

  /** The write loop; a negative result without a failed wait is an error. */
  method WriteLoop(qh: QSftpHelper, buf: array<byte>, at: nat, n: nat) returns (failed: bool, rc: int)
    requires Holds(qh) && 0 < n && at + n <= buf.Length && qh.handle.path in qh.client.remote
    modifies qh, qh.client
    ensures Keeps(qh) && (failed ==> qh.handle == null)
    ensures !failed ==> Holds(qh) && qh.handle == old(qh.handle)
    ensures failed || rc < 0 ==> qh.client.remote == old(qh.client.remote)
                                 && !Smooth(old(qh.client.outside), qh.client.outside)
    ensures !failed && rc >= 0 ==>
      && rc <= n
      && qh.client.remote
         == old(qh.client.remote)[qh.handle.path := old(qh.client.remote[qh.handle.path]) + buf[at..at + rc]]
    ensures !failed && rc == 0 ==> Fewer(old(qh.client.outside), qh.client.outside)
  {
    var client, h := qh.client, qh.handle;
    failed := false;
    rc := client.Write(h, buf, at, n);
    while rc == EAGAIN
      invariant Holds(qh) && StillOpen(qh) && h.path in client.remote
      invariant rc < 0 ==> client.remote == old(client.remote)
      invariant rc >= 0 ==>
        rc <= n && client.remote == old(client.remote)[h.path := old(client.remote[h.path]) + buf[at..at + rc]]
      invariant rc == 0 ==> Fewer(old(client.outside), client.outside)
      invariant rc < 0 && rc != EAGAIN ==> !Smooth(old(client.outside), client.outside)
      decreases |client.outside.choices|, rc == EAGAIN
    {
      failed := qh.WaitSocket();
      if failed { return; }
      rc := client.Write(h, buf, at, n);
    }
  }

  /** Repeats a write until it completes; after any failure the handle is closed. */
  method WriteSome(qh: QSftpHelper, buf: array<byte>, at: nat, n: nat) returns (rc: int)
    requires Holds(qh) && 0 < n && at + n <= buf.Length && qh.handle.path in qh.client.remote
    modifies qh, qh.client
    ensures Keeps(qh)
    ensures rc < 0 ==> qh.handle == null && qh.client.remote == old(qh.client.remote)
                       && !Smooth(old(qh.client.outside), qh.client.outside)
    ensures rc >= 0 ==>
      && Holds(qh) && qh.handle == old(qh.handle) && rc <= n
      && qh.client.remote
         == old(qh.client.remote)[qh.handle.path := old(qh.client.remote[qh.handle.path]) + buf[at..at + rc]]
    ensures rc == 0 ==> Fewer(old(qh.client.outside), qh.client.outside)
  {
    var failed;
    failed, rc := WriteLoop(qh, buf, at, n);
    if failed { return -1; }
    if rc < 0 { qh.Err(); }
  }

  /** QSftpHelper::close(): an error code of the server is reported like any other, but a wait that failed is not. */
  method CloseFile(qh: QSftpHelper) returns (ok: bool)
    requires Holds(qh)
    modifies qh, qh.client
    ensures Keeps(qh) && qh.handle == null && qh.client.remote == old(qh.client.remote)
    ensures !ok ==> !Smooth(old(qh.client.outside), qh.client.outside)
  {
    var again := qh.CloseIntern();
    ok := true;
    if !again {
      var failed := qh.client.Fails();
      ok := !failed;
    }
    if !ok { qh.Err(); }
  }

  /** The destructors that end an operation: the helper's, then the one that restores blocking mode. */
  method Leave(qh: QSftpHelper)
    requires qh.client.Valid() && qh.Valid() && (qh.handle == null || qh.handle in qh.client.openHandles)
    requires qh.client.Disconnected() || Usable(qh.client)
    modifies qh, qh.client
    ensures qh.handle == null && qh.client.Valid() && qh.client.remote == old(qh.client.remote)
    ensures qh.client.staleCalls == old(qh.client.staleCalls) && Later(old(qh.client.outside), qh.client.outside)
    ensures qh.client.History() == old(qh.client.History()) && qh.client.sftpPath == old(qh.client.sftpPath)
    ensures qh.client.pollOpInProgress == old(qh.client.pollOpInProgress)
    ensures old(qh.client.Disconnected()) ==> qh.client.Disconnected() && qh.client.log == old(qh.client.log)
    ensures old(qh.client.session) ==> ConnectionStays(qh.client)
    ensures
      || qh.client.Disconnected()
      || (Usable(qh.client) && qh.client.blocking
          && qh.client.openHandles == Without(old(qh.client.openHandles), old(qh.handle)))
  {
    if qh.handle != null {
      var _ := qh.CloseIntern();
    }
    qh.client.SetBlocking(true);
  }

  // ---- connecting ----------------------------------------------------------------------------------------------

  /** sftpIsAliveUnlocked(): opens the working directory; the mode of an idle session is blocking. */
  method IsAlive(client: SFTPClient) returns (alive: bool)
    requires Usable(client) && client.blocking
    modifies client
    ensures LeavesClean(client) && client.remote == old(client.remote) && !AwaitsAgent(|old(client.log)|, client.log)
    ensures client.log == old(client.log) || client.log == old(client.log) + [SessionClosed]
    ensures if alive then Usable(client) else !Smooth(old(client.outside), client.outside)
  {
    var qh := new QSftpHelper(client);
    var _, h := client.Open(if client.sftpPath == "" then "/" else client.sftpPath, false);
    qh.Assign(h);
    alive := h != null;
    if alive {
      var _ := qh.CloseIntern();
    } else {
      var dead := client.Asks();
      if !dead { qh.Err(); }
    }
  }

  /** What a step of a connect after the login leaves alone. */
  twostate predicate StepsOn(qh: QSftpHelper)
    reads qh, qh.client
  {
    var client := qh.client;
    && client.Valid() && qh.handle == null && client.openHandles == {} && client.remote == old(client.remote)
    && client.staleCalls == old(client.staleCalls) && client.History() == old(client.History())
    && Later(old(client.outside), client.outside) && client.pollOpInProgress == old(client.pollOpInProgress)
    && (client.sftpPath == old(client.sftpPath) || client.sftpPath == WorkingDirectory(client.env))
  }

  /** A step of a connect after the login; a failure disconnects. */
  twostate predicate Connects(qh: QSftpHelper, ok: bool)
    reads qh, qh.client
  {
    var client := qh.client;
    && StepsOn(qh)
    && (if ok then InUse(client) && client.authenticatedWith == old(client.authenticatedWith)
                   && client.log == old(client.log)
        else client.Disconnected() && !Undisturbed(old(client.outside), client.outside)
             && client.log == old(client.log) + [SessionClosed])
  }

  /** The SFTP session of a connection that was just made. */
  method InitSftp(qh: QSftpHelper) returns (ok: bool)
    requires qh.client.Valid() && qh.client.session && !qh.client.sftp && !qh.client.blocking && qh.handle == null
    modifies qh, qh.client
    ensures Connects(qh, ok)
  {
    var client := qh.client;
    var again;
    again, ok := client.SftpInit();
    while again
      invariant client.Valid() && client.session && client.sftp == ok && !client.blocking
      invariant qh.handle == null && client.openHandles == {}
      invariant client.remote == old(client.remote) && client.staleCalls == old(client.staleCalls)
      invariant client.log == old(client.log) && Later(old(client.outside), client.outside) && !(again && ok)
      invariant client.authenticatedWith == old(client.authenticatedWith) && client.sftpPath == old(client.sftpPath)
      invariant client.pollOpInProgress == old(client.pollOpInProgress)
      invariant !again && !ok ==> !Undisturbed(old(client.outside), client.outside)
      decreases |client.outside.choices|, again
    {
      var failed := qh.WaitSocket();
      if failed { return false; }
      again, ok := client.SftpInit();
    }
    if !ok {
      qh.Err();
      client.DisconnectUnlocked(null);
    }
  }

  /** Keeps the directory the server has named; otherwise the connection is given up. */
  method UsePath(qh: QSftpHelper, path: Option<string>) returns (ok: bool)
    requires InUse(qh.client) && qh.handle == null && qh.client.openHandles == {} && qh.client.sftpPath == ""
    requires path.Some? ==> path.value == WorkingDirectory(qh.client.env)
    modifies qh, qh.client
    ensures StepsOn(qh) && ok == path.Some?
    ensures ok ==> Connects(qh, true) && qh.client.sftpPath != ""
    ensures !ok ==> qh.client.Disconnected() && qh.client.log == old(qh.client.log) + [SessionClosed]
  {
    var client := qh.client;
    ok := path.Some?;
    if ok {
      client.sftpPath := path.value;
    } else {
      qh.Err();
      client.DisconnectUnlocked(null);
    }
  }

  /** The server's working directory, unless a path was set before. */
  method FindPath(qh: QSftpHelper) returns (ok: bool)
    requires InUse(qh.client) && qh.handle == null && qh.client.openHandles == {}
    modifies qh, qh.client
    ensures Connects(qh, ok) && (ok ==> qh.client.sftpPath != "")
  {
    var client := qh.client;
    if client.sftpPath != "" { return true; }
    var again, path := client.RealPath();
    while again
      invariant InUse(client) && qh.handle == null && client.openHandles == {}
      invariant client.remote == old(client.remote) && client.staleCalls == old(client.staleCalls)
      invariant client.log == old(client.log) && Later(old(client.outside), client.outside)
      invariant client.authenticatedWith == old(client.authenticatedWith) && client.sftpPath == old(client.sftpPath)
      invariant client.pollOpInProgress == old(client.pollOpInProgress)
      invariant path.Some? ==> path.value == WorkingDirectory(client.env)
      invariant !again && path.None? ==> !Undisturbed(old(client.outside), client.outside)
      decreases |client.outside.choices|, again
    {
      var failed := qh.WaitSocket();
      if failed { return false; }
      again, path := client.RealPath();
    }
    ok := UsePath(qh, path);
  }

  /** The part of sftpConnectUnlocked() after the login. */
  method StartSftp(client: SFTPClient) returns (ok: bool)
    requires client.Valid() && client.session && !client.sftp && client.openHandles == {}
    modifies client
    ensures client.Valid() && client.openHandles == {} && client.remote == old(client.remote)
    ensures client.staleCalls == old(client.staleCalls) && client.History() == old(client.History())
    ensures Later(old(client.outside), client.outside) && client.pollOpInProgress == old(client.pollOpInProgress)
    ensures old(client.PathKnown()) ==> client.PathKnown()
    ensures ok ==> Usable(client) && client.blocking && client.sftpPath != "" && client.log == old(client.log)
                   && client.authenticatedWith == old(client.authenticatedWith)
    ensures !ok ==> client.Disconnected() && !Undisturbed(old(client.outside), client.outside)
                    && client.log == old(client.log) + [SessionClosed]
  {
    client.SetBlocking(false);
    var qh := new QSftpHelper(client);
    ok := InitSftp(qh);
    if ok { ok := FindPath(qh); }
    client.SetBlocking(true);
  }

  /** sftpConnectUnlocked(): refused while a poll operation has reserved the client; n is the length of the log when the
      connection was asked for.
   */
  method SftpConnectUnlocked(client: SFTPClient, ghost n: nat) returns (ok: bool, ghost run: Option<AuthRun>)
    requires client.Valid() && NoneAwaited(n, client.log)
    modifies client
    ensures client.Valid() && client.remote == old(client.remote) && Later(old(client.outside), client.outside)
    ensures client.pollOpInProgress == old(client.pollOpInProgress) && (old(client.PathKnown()) ==> client.PathKnown())
    ensures old(client.pollOpInProgress) ==> !ok && unchanged(client)
    ensures run.Some? ==> client.IsAuthRun(run.value, old(client.History()))
                          && CanAuthenticate(client.env, client.settings, old(client.History()))
    ensures run.None? ==> !ok && client.History() == old(client.History())
    ensures ok ==>
      && Usable(client) && client.blocking && client.sftpPath != "" && client.openHandles == {}
      && LogsIn(run) && client.authenticatedWith == Some(run.value.ending.status.reported)
    ensures client.staleCalls == old(client.staleCalls) + Count(ClosedAwaitingAgent(n, client.log))
    ensures ok ==> NoneAwaited(n, client.log)
    ensures !ok ==> !Usable(client) || unchanged(client)
    ensures !ok && !old(client.pollOpInProgress) && Undisturbed(old(client.outside), client.outside) ==>
      if run.Some? then !LogsIn(run) else !CanAuthenticate(client.env, client.settings, old(client.History()))
    ensures run.Some? && run.value.ending.Aborted? ==>
      client.outside.interruptions > old(client.outside).interruptions
  {
    run := None;
    if client.Reserved() { return false, None; }
    if client.sftp { client.DisconnectUnlocked(null); }
    ok, run := client.SshConnectUnlocked(n);
    if !ok { return; }
    ok := StartSftp(client);
  }

  // ---- downloads -----------------------------------------------------------------------------------------------

  /** The read loop of sftpGetFile() and sftpGetTextFile(), which fills the buffer piece by piece. */
  method ReadAll(qh: QSftpHelper, buf: array<byte>, fsize: nat) returns (ok: bool)
    requires Holds(qh) && qh.handle.offset == 0 && fsize <= buf.Length
    modifies qh, qh.client, qh.handle, buf
    ensures Keeps(qh) && qh.client.remote == old(qh.client.remote)
    ensures ok ==> Holds(qh) && fsize <= |old(qh.handle.content)| && buf[..fsize] == old(qh.handle.content)[..fsize]
    ensures !ok ==> !Smooth(old(qh.client.outside), qh.client.outside)
  {
    var client, h := qh.client, qh.handle;
    var tot := 0;
    while fsize - tot != 0
      invariant Holds(qh) && Keeps(qh) && qh.handle == h && client.remote == old(client.remote)
      invariant h.offset == tot <= fsize && tot <= |h.content| && buf[..tot] == h.content[..tot]
      decreases |client.outside.choices|, fsize - tot
    {
      var rc := ReadSome(qh, buf, tot, fsize - tot);
      if rc < 0 { return false; }
      assert buf[..tot + rc] == buf[..tot] + buf[tot..tot + rc];
      assert h.content[..tot + rc] == h.content[..tot] + h.content[tot..tot + rc];
      if rc != 0 { tot := tot + rc; }
      if tot >= fsize { break; }
    }
    ok := true;
  }

  /** Reads a piece and passes it on; rc is negative after a failed read; after a failed write the handle is open. */
  method PassOn(qh: QSftpHelper, buf: array<byte>, n: nat, sink: Sink) returns (rc: int, failed: bool)
    requires Holds(qh) && 0 < n <= buf.Length && qh.handle.offset <= |qh.handle.content|
    modifies qh, qh.client, qh.handle, buf, sink
    ensures Keeps(qh) && qh.client.remote == old(qh.client.remote) && rc <= n
    ensures rc < 0 ==> sink.content == old(sink.content) && !Smooth(old(qh.client.outside), qh.client.outside)
    ensures sink.broken == (old(sink.broken) || failed)
    ensures rc >= 0 ==>
      && Holds(qh) && qh.handle == old(qh.handle)
      && qh.handle.offset == old(qh.handle.offset) + rc <= |qh.handle.content|
      && sink.content == old(sink.content)
                         + if failed then [] else qh.handle.content[old(qh.handle.offset)..qh.handle.offset]
    ensures rc == 0 ==> Fewer(old(qh.client.outside), qh.client.outside) && !failed
  {
    failed := false;
    rc := ReadSome(qh, buf, 0, n);
    if rc > 0 { failed := sink.Write(buf, rc); }
  }

  /** The read loop of sftpRetrieveFile() and sftpGet(), which passes every piece on. */
  method CopyOut(qh: QSftpHelper, fsize: nat, sink: Sink) returns (ok: bool, tot: nat)
    requires Holds(qh) && qh.handle.offset == 0
    modifies qh, qh.client, qh.handle, sink
    ensures Keeps(qh) && qh.client.remote == old(qh.client.remote)
    ensures tot <= fsize && tot <= |old(qh.handle.content)| && (ok ==> tot == fsize)
    ensures !ok ==> !Smooth(old(qh.client.outside), qh.client.outside) || sink.broken
    ensures sink.content <= old(sink.content) + old(qh.handle.content)[..tot]
    ensures ok ==> sink.content == old(sink.content) + old(qh.handle.content)[..tot]
  {
    var client, h := qh.client, qh.handle;
    var buf := new byte[BUFSIZE];
    tot := 0;
    while fsize - tot != 0
      invariant Holds(qh) && Keeps(qh) && qh.handle == h && client.remote == old(client.remote)
      invariant h.offset == tot <= fsize && tot <= |h.content| && sink.content == old(sink.content) + h.content[..tot]
      decreases |client.outside.choices|, fsize - tot
    {
      var bs := fsize - tot;
      if bs > BUFSIZE { bs := BUFSIZE; }
      var rc, failed := PassOn(qh, buf, bs, sink);
      if rc < 0 { return false, tot; }
      TakeMore(h.content, tot, h.content[tot..tot + rc], rc);
      tot := tot + rc;
      if failed { return false, tot; }
      if tot >= fsize { break; }
    }
    ok := true;
  }

  /** The server has as much of the file as it says. */
  predicate SizeHolds(env: Env, path: string) {
    env.statSize(path) <= |env.files(path)|
  }

  /** What a download delivers, for whatever chunks the server sends. */
  function Download(env: Env, path: string): (content: seq<byte>)
    ensures content <= env.files(path) && |content| <= env.statSize(path)
    ensures |content| == env.statSize(path) <==> SizeHolds(env, path)
  {
    if SizeHolds(env, path) then env.files(path)[..env.statSize(path)] else env.files(path)
  }

  /** Opens a remote file for reading once its size is known. */
  method OpenForReading(qh: QSftpHelper, path: string) returns (size: Option<nat>)
    requires InUse(qh.client) && qh.handle == null
    modifies qh, qh.client
    ensures size.None? ==> Keeps(qh) && qh.handle == null && !Smooth(old(qh.client.outside), qh.client.outside)
    ensures size.Some? ==>
      && Holds(qh) && fresh(qh.handle) && qh.client.openHandles - {qh.handle} == old(qh.client.openHandles)
      && qh.handle.offset == 0 && size.value == qh.client.env.statSize(path)
      && qh.handle.content == qh.client.env.files(path)
    ensures
      && qh.client.staleCalls == old(qh.client.staleCalls) && Later(old(qh.client.outside), qh.client.outside)
      && qh.client.History() == old(qh.client.History()) && qh.client.sftpPath == old(qh.client.sftpPath)
      && qh.client.pollOpInProgress == old(qh.client.pollOpInProgress) && qh.client.remote == old(qh.client.remote)
      && ConnectionStays(qh.client)
  {
    size := StatFile(qh, path);
    if size.Some? {
      var ok := OpenFile(qh, path, false);
      if !ok { size := None; }
    }
  }

  /** sftpGetFile() on a connected client. */
  method GetFile(client: SFTPClient, file: string) returns (data: Option<seq<byte>>)
    requires Usable(client)
    modifies client
    ensures LeavesClean(client) && client.remote == old(client.remote)
    ensures data.Some? ==> SizeHolds(client.env, AbsoluteFilename(client.sftpPath, file))
                           && data.value == Download(client.env, AbsoluteFilename(client.sftpPath, file))
    ensures data.None? ==> !Smooth(old(client.outside), client.outside)
  {
    client.SetBlocking(false);
    var qh := new QSftpHelper(client);
    data := None;
    var size := OpenForReading(qh, AbsoluteFilename(client.sftpPath, file));
    if size.Some? {
      var buf := new byte[size.value];
      var ok := ReadAll(qh, buf, size.value);
      if ok { data := Some(buf[..size.value]); }
    }
    Leave(qh);
  }

  /** sftpGetTextFile() on a connected client; the buffer has room for a terminating zero. */
  method GetTextFile(client: SFTPClient, file: string) returns (text: Option<seq<byte>>)
    requires Usable(client)
    modifies client
    ensures LeavesClean(client) && client.remote == old(client.remote)
    ensures text.Some? ==> SizeHolds(client.env, AbsoluteFilename(client.sftpPath, file))
                           && text.value == Download(client.env, AbsoluteFilename(client.sftpPath, file))
    ensures text.None? ==> !Smooth(old(client.outside), client.outside)
  {
    client.SetBlocking(false);
    var qh := new QSftpHelper(client);
    text := None;
    var size := OpenForReading(qh, AbsoluteFilename(client.sftpPath, file));
    if size.Some? {
      var buf := new byte[size.value + 1];
      var ok := ReadAll(qh, buf, size.value);
      if ok {
        buf[size.value] := 0;
        text := Some(buf[..size.value]);
      }
    }
    Leave(qh);
  }

  /** sftpRetrieveFile() and sftpGet() on a connected client: the number of bytes delivered, or None after a failure of
      either end, when a beginning of the file may have been delivered.
   */
  method RetrieveTo(client: SFTPClient, file: string, sink: Sink) returns (count: Option<nat>)
    requires Usable(client)
    modifies client, sink
    ensures LeavesClean(client) && client.remote == old(client.remote)
    ensures sink.content <= old(sink.content) + Download(client.env, AbsoluteFilename(client.sftpPath, file))
    ensures count.Some? ==>
      && SizeHolds(client.env, AbsoluteFilename(client.sftpPath, file))
      && sink.content == old(sink.content) + Download(client.env, AbsoluteFilename(client.sftpPath, file))
      && count.value == client.env.statSize(AbsoluteFilename(client.sftpPath, file))
    ensures count.None? ==> !Smooth(old(client.outside), client.outside) || sink.broken
  {
    client.SetBlocking(false);
    var qh := new QSftpHelper(client);
    count := None;
    var size := OpenForReading(qh, AbsoluteFilename(client.sftpPath, file));
    if size.Some? {
      var refused := sink.Open();
      if !refused {
        var ok, tot := CopyOut(qh, size.value, sink);
        if ok { count := Some(tot); }
      }
    }
    Leave(qh);
  }

  // ---- uploads -------------------------------------------------------------------------------------------------

  /** All that an upload to the path ever changes on the server: the file holds a beginning of the content. */
  predicate WritesOnly(before: map<string, seq<byte>>, after: map<string, seq<byte>>, path: string,
                       content: seq<byte>) {
    after == before || (path in after && after[path] <= content && after == before[path := after[path]])
  }

  /** The inner loop of sftpTransferFile() and sftpPut(): the same data is offered until all of it was accepted. */
  method SendAll(qh: QSftpHelper, buf: array<byte>, n: nat) returns (ok: bool, total: nat)
    requires Holds(qh) && 0 < n <= buf.Length && qh.handle.path in qh.client.remote
    modifies qh, qh.client
    ensures Keeps(qh) && total <= n
    ensures ok ==> Holds(qh) && qh.handle == old(qh.handle) && total == n
    ensures !ok ==> !Smooth(old(qh.client.outside), qh.client.outside)
    ensures qh.client.remote
            == old(qh.client.remote)[old(qh.handle).path := old(qh.client.remote[qh.handle.path]) + buf[..total]]
  {
    var client, h := qh.client, qh.handle;
    total := 0;
    ghost var was := client.remote[h.path];
    assert was + buf[..0] == was && client.remote == client.remote[h.path := was];
    while true
      invariant Holds(qh) && Keeps(qh) && qh.handle == h && h.path in client.remote && total < n
      invariant client.remote == old(client.remote)[h.path := was + buf[..total]]
      decreases |client.outside.choices|, n - total
    {
      var rc := WriteSome(qh, buf, total, n - total);
      if rc < 0 { return false, total; }
      assert rc <= n - total;
      assert was + buf[..total + rc] == was + buf[..total] + buf[total..total + rc];
      total := total + rc;
      assert total <= n;
      if total == n { break; }
    }
    ok := true;
  }

  /** The write loop of sftpPutFile(), which offers what is left of the data. */
  method SendBytes(qh: QSftpHelper, data: array<byte>) returns (ok: bool, size: nat)
    requires Holds(qh) && qh.handle.path in qh.client.remote && qh.client.remote[qh.handle.path] == []
    modifies qh, qh.client
    ensures Keeps(qh) && size <= data.Length
    ensures ok ==> Holds(qh) && qh.handle == old(qh.handle) && size == data.Length
    ensures !ok ==> !Smooth(old(qh.client.outside), qh.client.outside)
    ensures qh.client.remote == old(qh.client.remote)[old(qh.handle).path := data[..size]]
  {
    var client, h := qh.client, qh.handle;
    size := 0;
    while size < data.Length
      invariant Holds(qh) && Keeps(qh) && qh.handle == h && h.path in client.remote && size <= data.Length
      invariant client.remote == old(client.remote)[h.path := data[..size]]
      decreases |client.outside.choices|, data.Length - size
    {
      var rc := WriteSome(qh, data, size, data.Length - size);
      if rc < 0 { return false, size; }
      assert data[..size + rc] == data[..size] + data[size..size + rc];
      size := size + rc;
    }
    assert size == data.Length;
    ok := true;
  }

  /** A part of the next chunk extends what was sent. */
  lemma TakeMore(content: seq<byte>, size: nat, chunk: seq<byte>, total: nat)
    requires size + |chunk| <= |content| && chunk == content[size..size + |chunk|] && total <= |chunk|
    ensures content[..size + total] == content[..size] + chunk[..total]
  {
  }

  /** The outer loop of sftpTransferFile(), for as many bytes as the local file had when it was opened. */
  method SendFile(qh: QSftpHelper, source: Source) returns (ok: bool, size: nat)
    requires Holds(qh) && qh.handle.path in qh.client.remote && qh.client.remote[qh.handle.path] == []
    requires source.Valid() && source.position == 0
    modifies qh, qh.client, source
    ensures Keeps(qh) && size <= |source.content|
    ensures ok ==> Holds(qh) && qh.handle == old(qh.handle) && size == |source.content|
    ensures !ok ==> !Smooth(old(qh.client.outside), qh.client.outside) || source.broken
    ensures qh.client.remote == old(qh.client.remote)[old(qh.handle).path := source.content[..size]]
  {
    var client, h := qh.client, qh.handle;
    var buf := new byte[BUFSIZE];
    var towrite := |source.content|;
    size := 0;
    while size < towrite
      invariant Holds(qh) && Keeps(qh) && qh.handle == h && h.path in client.remote && fresh(buf)
      invariant source.Valid() && source.position == size
      invariant client.remote == old(client.remote)[h.path := source.content[..size]]
      decreases towrite - size
    {
      var bs := towrite - size;
      if bs > BUFSIZE { bs := BUFSIZE; }
      var failed, k := source.Read(buf, bs);
      if failed { return false, size; }
      assert k != 0;
      ghost var chunk := buf[..k];
      var sent, total := SendAll(qh, buf, k);
      assert buf[..total] == chunk[..total];
      TakeMore(source.content, size, chunk, total);
      size := size + total;
      if !sent { return false, size; }
    }
    ok := true;
  }

  /** The loop of sftpPut(), until the stream is at its end. */
  method SendStream(qh: QSftpHelper, source: Source) returns (ok: bool, size: nat)
    requires Holds(qh) && qh.handle.path in qh.client.remote && qh.client.remote[qh.handle.path] == []
    requires source.Valid() && source.position == 0
    modifies qh, qh.client, source
    ensures Keeps(qh) && size <= |source.content|
    ensures ok ==> Holds(qh) && qh.handle == old(qh.handle) && size == |source.content|
    ensures !ok ==> !Smooth(old(qh.client.outside), qh.client.outside) || source.broken
    ensures qh.client.remote == old(qh.client.remote)[old(qh.handle).path := source.content[..size]]
  {
    var client, h := qh.client, qh.handle;
    var buf := new byte[BUFSIZE];
    size := 0;
    while true
      invariant Holds(qh) && Keeps(qh) && qh.handle == h && h.path in client.remote && fresh(buf)
      invariant source.Valid() && source.position == size
      invariant client.remote == old(client.remote)[h.path := source.content[..size]]
      decreases |source.content| - size
    {
      var failed, r := source.Read(buf, BUFSIZE);
      if failed { return false, size; }
      if r == 0 { break; }
      ghost var chunk := buf[..r];
      var sent, total := SendAll(qh, buf, r);
      assert buf[..total] == chunk[..total];
      TakeMore(source.content, size, chunk, total);
      size := size + total;
      if !sent { return false, size; }
    }
    ok := true;
  }

  /** Writes the data to the open file and closes it. */
  method SendAndClose(qh: QSftpHelper, data: array<byte>) returns (count: Option<nat>)
    requires Holds(qh) && qh.handle.path in qh.client.remote && qh.client.remote[qh.handle.path] == []
    modifies qh, qh.client
    ensures Keeps(qh)
    ensures WritesOnly(old(qh.client.remote), qh.client.remote, old(qh.handle).path, data[..])
    ensures count.Some? ==>
      count.value == data.Length && qh.client.remote == old(qh.client.remote)[old(qh.handle).path := data[..]]
    ensures count.None? ==> !Smooth(old(qh.client.outside), qh.client.outside)
  {
    count := None;
    var ok, size := SendBytes(qh, data);
    if ok {
      assert data[..size] == data[..];
      ok := CloseFile(qh);
      if ok { count := Some(size); }
    }
  }

  /** sftpPutFile() on a connected client: the number of bytes written, or None after a failure. */
  method PutFile(client: SFTPClient, data: array<byte>, file: string) returns (count: Option<nat>)
    requires Usable(client)
    modifies client
    ensures LeavesClean(client)
    ensures WritesOnly(old(client.remote), client.remote, AbsoluteFilename(client.sftpPath, file), data[..])
    ensures count.Some? ==>
      && count.value == data.Length
      && client.remote == old(client.remote)[AbsoluteFilename(client.sftpPath, file) := data[..]]
    ensures count.None? ==> !Smooth(old(client.outside), client.outside)
  {
    var path := AbsoluteFilename(client.sftpPath, file);
    client.SetBlocking(false);
    var qh := new QSftpHelper(client);
    count := None;
    var ok := OpenFile(qh, path, true);
    if ok {
      count := SendAndClose(qh, data);
    }
    Leave(qh);
  }

  method SendSource(qh: QSftpHelper, source: Source, stream: bool) returns (ok: bool, size: nat)
    requires Holds(qh) && qh.handle.path in qh.client.remote && qh.client.remote[qh.handle.path] == []
    requires source.Valid() && source.position == 0
    modifies qh, qh.client, source
    ensures Keeps(qh) && size <= |source.content|
    ensures ok ==> Holds(qh) && qh.handle == old(qh.handle) && size == |source.content|
    ensures !ok ==> !Smooth(old(qh.client.outside), qh.client.outside) || source.broken
    ensures qh.client.remote == old(qh.client.remote)[old(qh.handle).path := source.content[..size]]
  {
    if stream {
      ok, size := SendStream(qh, source);
    } else {
      ok, size := SendFile(qh, source);
    }
  }

  /** Writes what the source has to the open file and closes it. */
  method SendSourceAndClose(qh: QSftpHelper, source: Source, stream: bool) returns (count: Option<nat>)
    requires Holds(qh) && qh.handle.path in qh.client.remote && qh.client.remote[qh.handle.path] == []
    requires source.Valid() && source.position == 0
    modifies qh, qh.client, source
    ensures Keeps(qh)
    ensures WritesOnly(old(qh.client.remote), qh.client.remote, old(qh.handle).path, source.content)
    ensures count.Some? ==>
      && count.value == |source.content|
      && qh.client.remote == old(qh.client.remote)[old(qh.handle).path := source.content]
    ensures count.None? ==> !Smooth(old(qh.client.outside), qh.client.outside) || source.broken
  {
    count := None;
    var ok, size := SendSource(qh, source, stream);
    if ok {
      assert source.content[..size] == source.content;
      ok := CloseFile(qh);
      if ok { count := Some(size); }
    }
  }

  /** sftpTransferFile() of an opened local file, or with stream set sftpPut(), on a connected client. */
  method Upload(client: SFTPClient, source: Source, stream: bool, file: string) returns (count: Option<nat>)
    requires Usable(client) && source.Valid() && source.position == 0
    modifies client, source
    ensures LeavesClean(client)
    ensures WritesOnly(old(client.remote), client.remote, AbsoluteFilename(client.sftpPath, file), source.content)
    ensures count.Some? ==>
      && count.value == |source.content|
      && client.remote == old(client.remote)[AbsoluteFilename(client.sftpPath, file) := source.content]
    ensures count.None? ==> !Smooth(old(client.outside), client.outside) || source.broken
  {
    var path := AbsoluteFilename(client.sftpPath, file);
    client.SetBlocking(false);
    var qh := new QSftpHelper(client);
    count := None;
    var ok := OpenFile(qh, path, true);
    if ok {
      count := SendSourceAndClose(qh, source, stream);
    }
    Leave(qh);
  }

  // ---- an implicit connection ----------------------------------------------------------------------------------

  /** What every SFTP operation does first: connects unless there is a connection that is alive.  A freed agent is used
      exactly if the session ended while a call of the agent had to be repeated.
   */
  method EnsureConnected(client: SFTPClient) returns (ok: bool, ghost run: Option<AuthRun>)
    requires client.Valid() && (client.sftp ==> client.blocking)
    modifies client
    ensures client.Valid() && client.remote == old(client.remote) && Later(old(client.outside), client.outside)
    ensures ok ==> Usable(client) && client.blocking
    ensures ok && old(client.sftp ==> client.sftpPath != "") ==> client.sftpPath != ""
    ensures old(client.PathKnown()) ==> client.PathKnown()
    ensures client.staleCalls == old(client.staleCalls) + Count(ClosedAwaitingAgent(|old(client.log)|, client.log))
    ensures ok ==> client.staleCalls == old(client.staleCalls)
    ensures old(client.sftp) && Smooth(old(client.outside), client.outside) ==>
      ok && run.None? && client.log == old(client.log)
    ensures !ok && !old(client.pollOpInProgress) && Undisturbed(old(client.outside), client.outside) ==>
      if run.Some? then !LogsIn(run) else !CanAuthenticate(client.env, client.settings, old(client.History()))
    ensures run.Some? ==> client.IsAuthRun(run.value, old(client.History()))
    ensures run.Some? && run.value.ending.Aborted? ==>
      client.outside.interruptions > old(client.outside).interruptions
  {
    run := None;
    if client.sftp {
      ok := IsAlive(client);
      if ok { return; }
    }
    ok, run := SftpConnectUnlocked(client, |old(client.log)|);
  }
}
