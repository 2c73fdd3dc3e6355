/** The polling loop of SftpPoller (qlib/SftpPoller.qm) with delete_remote_file set: exceptions, retries and what is
    passed to singleFileEvent().
 */
module Poller {
  import opened Ssh2Types

  /** A remote file. */
  datatype FileId = FileId(dir: string, name: string)

  predicate Distinct<T(==)>(s: seq<T>) {
    forall i, j | 0 <= i < j < |s| :: s[i] != s[j]
  }

  /** How a call ended. */
  datatype Ending = Returned | Threw

  /** A pass over a directory: the names that were listed, whether fileEvent() accepted them, and how many of them were
      passed to singleFileEvent().
   */
  datatype Pass = Pass(dir: string, listed: seq<string>, accepted: bool, done: nat)

  /** Only what was listed and accepted is delivered. */
  predicate InOrder(p: Pass) {
    p.done <= |p.listed| && (!p.accepted ==> p.done == 0)
  }

  /** A pass that has delivered everything it had to. */
  predicate Complete(p: Pass) {
    p.done == if p.accepted then |p.listed| else 0
  }

  function Files(dir: string, names: seq<string>): (files: seq<FileId>)
    ensures |files| == |names| && forall i | 0 <= i < |names| :: files[i] == FileId(dir, names[i])
  {
    seq(|names|, i requires 0 <= i < |names| => FileId(dir, names[i]))
  }

  /** What a pass delivers: the first so many of its files, in the order they were listed. */
  function FilesOf(p: Pass): seq<FileId> {
    Files(p.dir, if p.done <= |p.listed| then p.listed[..p.done] else p.listed)
  }

  function Deliveries(passes: seq<Pass>): seq<FileId> {
    if passes == [] then [] else Deliveries(passes[..|passes| - 1]) + FilesOf(passes[|passes| - 1])
  }

  function Unfinished(passes: seq<Pass>): nat {
    if passes == [] then 0
    else Unfinished(passes[..|passes| - 1]) + if Complete(passes[|passes| - 1]) then 0 else 1
  }

  function Dirs(passes: seq<Pass>): (dirs: seq<string>)
    ensures |dirs| == |passes|
  {
    if passes == [] then [] else Dirs(passes[..|passes| - 1]) + [passes[|passes| - 1].dir]
  }

  /** Whether anything was listed. */
  predicate Found(passes: seq<Pass>) {
    passes != [] && (Found(passes[..|passes| - 1]) || passes[|passes| - 1].listed != [])
  }

  function Joined(rounds: seq<seq<string>>): seq<string> {
    if rounds == [] then [] else Joined(rounds[..|rounds| - 1]) + rounds[|rounds| - 1]
  }

  lemma OneMoreDelivered(passes: seq<Pass>, p: Pass)
    requires p.done < |p.listed|
    ensures Deliveries(passes + [p.(done := p.done + 1)])
            == Deliveries(passes + [p]) + [FileId(p.dir, p.listed[p.done])]
  {
    var p' := p.(done := p.done + 1);
    assert (passes + [p])[..|passes|] == passes && (passes + [p'])[..|passes|] == passes;
    assert FilesOf(p') == FilesOf(p) + [FileId(p.dir, p.listed[p.done])];
  }

  /** What a pass adds. */
  lemma OneMorePass(passes: seq<Pass>, p: Pass)
    ensures Deliveries(passes + [p]) == Deliveries(passes) + FilesOf(p)
    ensures Unfinished(passes + [p]) == Unfinished(passes) + if Complete(p) then 0 else 1
    ensures Dirs(passes + [p]) == Dirs(passes) + [p.dir]
    ensures Found(passes + [p]) <==> Found(passes) || p.listed != []
  {
    assert (passes + [p])[..|passes|] == passes;
  }

  lemma LastOfJoin(before: seq<Pass>, more: seq<Pass>)
    requires more != []
    ensures (before + more)[..|before + more| - 1] == before + more[..|more| - 1]
    ensures (before + more)[|before + more| - 1] == more[|more| - 1]
  {
  }

  /** Deliveries of passes add up. */
  lemma {:induction false} DeliveriesJoin(before: seq<Pass>, more: seq<Pass>)
    ensures Deliveries(before + more) == Deliveries(before) + Deliveries(more)
    decreases |more|
  {
    if more == [] {
      assert before + more == before;
    } else {
      var rest, last := Deliveries(more[..|more| - 1]), FilesOf(more[|more| - 1]);
      LastOfJoin(before, more);
      DeliveriesJoin(before, more[..|more| - 1]);
      assert Deliveries(before) + rest + last == Deliveries(before) + (rest + last);
    }
  }

  lemma {:induction false} UnfinishedJoin(before: seq<Pass>, more: seq<Pass>)
    ensures Unfinished(before + more) == Unfinished(before) + Unfinished(more)
    decreases |more|
  {
    if more == [] {
      assert before + more == before;
    } else {
      LastOfJoin(before, more);
      UnfinishedJoin(before, more[..|more| - 1]);
    }
  }

  lemma {:induction false} DirsJoin(before: seq<Pass>, more: seq<Pass>)
    ensures Dirs(before + more) == Dirs(before) + Dirs(more)
    decreases |more|
  {
    if more == [] {
      assert before + more == before;
    } else {
      var rest, last := Dirs(more[..|more| - 1]), [more[|more| - 1].dir];
      LastOfJoin(before, more);
      DirsJoin(before, more[..|more| - 1]);
      assert Dirs(before) + rest + last == Dirs(before) + (rest + last);
    }
  }

  lemma RoundsJoin(before: seq<Pass>, more: seq<Pass>, rounds: seq<seq<string>>)
    requires Dirs(before) == Joined(rounds)
    ensures Dirs(before + more) == Joined(rounds + [Dirs(more)])
  {
    DirsJoin(before, more);
    assert (rounds + [Dirs(more)])[..|rounds|] == rounds;
  }

  /** The record after one more pass. */
  lemma RecordExtends(before: seq<Pass>, was: seq<FileId>, more: seq<Pass>, p: Pass)
    ensures before + more + [p] == before + (more + [p])
    ensures was + Deliveries(more) + FilesOf(p) == was + Deliveries(more + [p])
  {
    OneMorePass(more, p);
  }

  /** The record after one more poll. */
  lemma RecordJoins(before: seq<Pass>, was: seq<FileId>, more: seq<Pass>, next: seq<Pass>)
    ensures before + more + next == before + (more + next)
    ensures was + Deliveries(more) + Deliveries(next) == was + Deliveries(more + next)
  {
    DeliveriesJoin(more, next);
  }

  class SftpPoller {
    const path: seq<string>
    const masked: string -> bool   // what the file mask means
    var getFiles: bool             // exceptions are retried
    var runflag: bool
    var pollcnt: nat
    var remote: set<FileId>        // the regular files on the server
    var young: set<FileId>         // those that are not old enough
    var delivered: seq<FileId>     // what was passed to singleFileEvent(), in order
    var polls: nat                 // a bound on the polls before stop() is called
    ghost var passes: seq<Pass>    // what was listed, accepted and delivered; only the calls outside change it
    ghost var exceptions: nat      // how many calls threw
    ghost var rounds: seq<seq<string>>  // the directories each poll has listed

    /** Every delivered file was deleted. */
    ghost predicate AllDeleted()
      reads `remote, `delivered
    {
      forall f | f in delivered :: f !in remote
    }

    /** What was delivered is what the passes say, and nothing twice. */
    ghost predicate Recorded()
      reads `delivered, `passes
    {
      (forall p | p in passes :: InOrder(p)) && delivered == Deliveries(passes) && Distinct(delivered)
    }

    /** The passes are those of the polls, in order. */
    ghost predicate InRounds()
      reads `passes, `rounds
    {
      Dirs(passes) == Joined(rounds)
    }

    constructor (path: seq<string>, masked: string -> bool, remote: set<FileId>, polls: nat)
      ensures this.path == path && this.masked == masked && this.remote == remote && this.polls == polls
      ensures delivered == [] && passes == [] && Recorded() && AllDeleted() && InRounds() && runflag
    {
      this.path, this.masked, this.remote, this.polls := path, masked, remote, polls;
      getFiles, runflag, pollcnt, young, delivered := true, true, 0, {}, [];
      passes, exceptions, rounds := [], 0, [];
    }

    // ---- the server, the other clients and the user's methods ----------------------------------------------------

    /** Other clients delete files and upload new ones, but no file that was delivered. */
    method Meanwhile()
      modifies `remote, `young
      ensures forall f | f in remote && f !in old(remote) :: f !in delivered
    {
      var uploaded: set<FileId>, gone: set<FileId> := *, *;
      remote := remote - gone + (set f | f in uploaded && f !in delivered);
      young := *;
    }

    /** Any call that does not concern the files: changing the directory, a transfer, a log message. */
    method Other() returns (e: Ending)
      modifies `remote, `young, `exceptions
      ensures forall f | f in remote && f !in old(remote) :: f !in delivered
      ensures exceptions == old(exceptions) + if e.Threw? then 1 else 0
    {
      Meanwhile();
      var threw := *;
      e := if threw then Threw else Returned;
      exceptions := exceptions + if e.Threw? then 1 else 0;
    }

    /** getFiles(): in some order, exactly the files of the directory that the mask means and that are old enough. */
    method ListFiles(dir: string) returns (e: Ending, files: seq<string>)
      modifies `remote, `young, `exceptions, `passes
      ensures forall f | f in remote && f !in old(remote) :: f !in delivered
      ensures exceptions == old(exceptions) + if e.Threw? then 1 else 0
      ensures passes == if e.Threw? then old(passes) else old(passes) + [Pass(dir, files, false, 0)]
      ensures e.Returned? ==>
        && Distinct(files)
        && forall name :: name in files <==> FileId(dir, name) in remote && masked(name) && FileId(dir, name) !in young
    {
      e := Other();
      files := [];
      if e.Threw? { return; }
      var rest := set f | f in remote && f.dir == dir && masked(f.name) && f !in young;
      ghost var all := rest;
      while rest != {}
        invariant Distinct(files) && rest <= all
        invariant forall f | f in all :: f in rest <==> f.name !in files
        invariant forall name | name in files :: FileId(dir, name) in all
        decreases |rest|
      {
        var f :| f in rest;
        files, rest := files + [f.name], rest - {f};
      }
      forall name
        ensures name in files <==> FileId(dir, name) in all
      {
        if FileId(dir, name) in all { assert FileId(dir, name).name == name; }
      }
      passes := passes + [Pass(dir, files, false, 0)];
    }

    /** fileEvent(): the user may refuse the files that were listed last. */
    method FileEvent() returns (e: Ending, accepted: bool)
      requires passes != []
      modifies `remote, `young, `exceptions, `passes
      ensures forall f | f in remote && f !in old(remote) :: f !in delivered
      ensures exceptions == old(exceptions) + if e.Threw? then 1 else 0
      ensures passes == if e.Threw? then old(passes)
                        else old(passes)[|old(passes)| - 1 := old(passes)[|old(passes)| - 1].(accepted := accepted)]
    {
      e := Other();
      accepted := *;
      if e.Returned? {
        passes := passes[|passes| - 1 := passes[|passes| - 1].(accepted := accepted)];
      }
    }

    /** singleFileEvent(): delivers one more of the files that were listed last. */
    method SingleFileEvent(f: FileId) returns (e: Ending)
      requires passes != []
      modifies `remote, `young, `exceptions, `passes, `delivered
      ensures delivered == old(delivered) + [f]
      ensures forall g | g in remote && g !in old(remote) :: g !in delivered
      ensures exceptions == old(exceptions) + if e.Threw? then 1 else 0
      ensures passes
              == old(passes)[|old(passes)| - 1
                             := old(passes)[|old(passes)| - 1].(done := old(passes)[|old(passes)| - 1].done + 1)]
    {
      delivered := delivered + [f];
      passes := passes[|passes| - 1 := passes[|passes| - 1].(done := passes[|passes| - 1].done + 1)];
      e := Other();
    }

    /** removeFile() */
    method RemoveFile(f: FileId) returns (e: Ending)
      modifies `remote, `young, `exceptions
      ensures forall g | g in remote && g !in old(remote) :: g !in delivered
      ensures exceptions == old(exceptions) + if e.Threw? then 1 else 0
      ensures e.Returned? ==> f !in remote
    {
      e := Other();
      if e.Returned? { remote := remote - {f}; }
    }

    // ---- polling -------------------------------------------------------------------------------------------------

    /** The pass that is going on. */
    ghost predicate Going(before: seq<Pass>, dir: string, files: seq<string>, done: nat)
      reads `passes
    {
      done <= |files| && passes == before + [Pass(dir, files, true, done)]
    }

    /** Delivers the next file of the list. */
    method DeliverNext(ghost before: seq<Pass>, dir: string, files: seq<string>, k: nat) returns (e: Ending)
      requires Recorded() && AllDeleted() && Going(before, dir, files, k) && k < |files|
      requires FileId(dir, files[k]) !in delivered
      modifies `remote, `young, `exceptions, `passes, `delivered
      ensures Recorded() && Going(before, dir, files, k + 1) && delivered == old(delivered) + [FileId(dir, files[k])]
      ensures exceptions == old(exceptions) + if e.Threw? then 1 else 0
      ensures forall g | g in remote && g !in old(remote) :: g !in delivered
    {
      OneMoreDelivered(before, Pass(dir, files, true, k));
      e := SingleFileEvent(FileId(dir, files[k]));
      assert passes == before + [Pass(dir, files, true, k + 1)];
    }

    /** What runOnce() does with one file of the list. */
    method ProcessFile(ghost before: seq<Pass>, dir: string, files: seq<string>, k: nat) returns (e: Ending)
      requires Recorded() && AllDeleted() && Going(before, dir, files, k) && k < |files|
      requires FileId(dir, files[k]) !in delivered
      modifies `remote, `young, `exceptions, `passes, `delivered, `getFiles
      ensures Recorded() && exceptions == old(exceptions) + if e.Threw? then 1 else 0
      ensures delivered == old(delivered) + if Going(before, dir, files, k) then [] else [FileId(dir, files[k])]
      ensures Going(before, dir, files, k) || Going(before, dir, files, k + 1)
      ensures e.Returned? ==> AllDeleted() && Going(before, dir, files, k + 1) && !getFiles
      ensures e.Threw? && getFiles ==> AllDeleted() && old(getFiles) && Going(before, dir, files, k)
      ensures !getFiles && old(getFiles) ==> Going(before, dir, files, k + 1)
    {
      e := Other();                     // the transfer of the file's data
      if e.Threw? { return; }
      getFiles := false;
      e := DeliverNext(before, dir, files, k);
      if e.Threw? { return; }
      e := RemoveFile(FileId(dir, files[k]));
      if e.Threw? { return; }
      e := Other();                     // postSingleFileEvent()
    }

    /** The loop of runOnce() over the files that were accepted. */
    method ProcessFiles(ghost before: seq<Pass>, dir: string, files: seq<string>) returns (e: Ending)
      requires Recorded() && AllDeleted() && Going(before, dir, files, 0) && Distinct(files) && getFiles
      requires forall name | name in files :: FileId(dir, name) !in delivered
      modifies `remote, `young, `exceptions, `passes, `delivered, `getFiles
      ensures Recorded() && exceptions == old(exceptions) + if e.Threw? then 1 else 0
      ensures e.Returned? ==> AllDeleted() && Going(before, dir, files, |files|)
      ensures exists done: nat :: Going(before, dir, files, done) && (e.Threw? ==> (getFiles <==> done == 0))
      ensures e.Threw? && getFiles ==> AllDeleted()
    {
      e := Returned;
      for k := 0 to |files|
        invariant Recorded() && AllDeleted() && Going(before, dir, files, k) && e.Returned?
        invariant exceptions == old(exceptions) && (getFiles <==> k == 0)
        invariant forall j | k <= j < |files| :: FileId(dir, files[j]) !in delivered
      {
        e := ProcessFile(before, dir, files, k);
        if e.Threw? { return; }
      }
    }

    /** What a poll or a run has added to the record. */
    twostate predicate AddedAll(new more: seq<Pass>)
      reads `passes, `delivered
    {
      Recorded() && passes == old(passes) + more && delivered == old(delivered) + Deliveries(more)
    }

    /** What a pass over a directory has added to the record; None if it threw before anything was listed. */
    twostate predicate Added(dir: string, new p: Option<Pass>)
      reads `passes, `delivered
    {
      && Recorded()
      && (p.None? ==> passes == old(passes) && delivered == old(delivered))
      && (p.Some? ==> p.value.dir == dir && InOrder(p.value) && passes == old(passes) + [p.value]
                      && delivered == old(delivered) + FilesOf(p.value))
    }

    /** The pass once files were listed. */
    method PollListed(ghost before: seq<Pass>, dir: string, files: seq<string>) returns (e: Ending, ghost p: Pass)
      requires Recorded() && AllDeleted() && Distinct(files) && getFiles
      requires passes == before + [Pass(dir, files, false, 0)]
      requires forall name | name in files :: FileId(dir, name) in remote
      modifies `remote, `young, `exceptions, `passes, `delivered, `getFiles
      ensures Recorded() && exceptions == old(exceptions) + if e.Threw? then 1 else 0
      ensures passes == before + [p] && p.dir == dir && p.listed == files
      ensures e.Returned? ==> AllDeleted() && Complete(p)
      ensures e.Threw? ==> (getFiles <==> p.done == 0) && (getFiles ==> AllDeleted())
    {
      OneMorePass(before, Pass(dir, files, false, 0));
      OneMorePass(before, Pass(dir, files, true, 0));
      p := Pass(dir, files, false, 0);
      var accepted;
      e, accepted := FileEvent();
      if e.Threw? { return; }
      p := p.(accepted := accepted);
      assert passes == before + [p];
      if !accepted { return; }
      e := ProcessFiles(before, dir, files);
      ghost var done: nat :| Going(before, dir, files, done) && (e.Threw? ==> (getFiles <==> done == 0));
      p := p.(done := done);
    }

    lemma PassAdded(before: seq<Pass>, was: seq<FileId>, p: Pass)
      requires Recorded() && passes == before + [p] && was == Deliveries(before)
      ensures InOrder(p) && delivered == was + FilesOf(p)
    {
      OneMorePass(before, p);
      assert p in passes;
    }

    /** The pass of runOnce() over the directory the client is in. */
    method PollHere(dir: string) returns (e: Ending, found: bool, ghost p: Option<Pass>)
      requires Recorded() && AllDeleted() && getFiles
      modifies `remote, `young, `exceptions, `passes, `delivered, `getFiles
      ensures Added(dir, p) && exceptions == old(exceptions) + if e.Threw? then 1 else 0
      ensures e.Returned? ==> AllDeleted() && p.Some? && Complete(p.value) && (found <==> p.value.listed != [])
      ensures e.Threw? ==> (getFiles <==> p.None? || p.value.done == 0) && (getFiles ==> AllDeleted())
    {
      found, p := false, None;
      var files;
      e, files := ListFiles(dir);
      if e.Threw? { return; }
      ghost var q := Pass(dir, files, false, 0);
      OneMorePass(old(passes), q);
      if files != [] {
        found := true;
        e, q := PollListed(old(passes), dir, files);
      }
      PassAdded(old(passes), old(delivered), q);
      p := Some(q);
    }

    /** The pass of runOnce() over one directory: with nothing thrown it delivers exactly the files that were listed, in
        their order, if they were accepted.  What is thrown after a delivery ends the run.
     */
    method PollDirectory(dir: string) returns (e: Ending, found: bool, ghost p: Option<Pass>)
      requires Recorded() && AllDeleted()
      modifies `remote, `young, `exceptions, `passes, `delivered, `getFiles
      ensures Added(dir, p) && exceptions == old(exceptions) + if e.Threw? then 1 else 0
      ensures e.Returned? ==> AllDeleted() && p.Some? && Complete(p.value) && (found <==> p.value.listed != [])
      ensures e.Threw? ==> (getFiles <==> p.None? || p.value.done == 0) && (getFiles ==> AllDeleted())
    {
      getFiles, found, p := true, false, None;
      if |path| != 1 {
        e := Other();                   // the directory is changed
        if e.Threw? { return; }
      }
      e, found, p := PollHere(dir);
    }

    lemma NextDir(i: nat, sofar: seq<Pass>, p: Pass)
      requires i < |path| && Dirs(sofar) == path[..i] && p.dir == path[i]
      ensures Dirs(sofar + [p]) == path[..i + 1] && (Found(sofar + [p]) <==> Found(sofar) || p.listed != [])
      ensures Unfinished(sofar + [p]) == Unfinished(sofar) + if Complete(p) then 0 else 1
      ensures Deliveries(sofar + [p]) == Deliveries(sofar) + FilesOf(p)
    {
      OneMorePass(sofar, p);
    }

    /** One more directory after the passes of this poll. */
    method PollNext(i: nat, ghost before: seq<Pass>, ghost was: seq<FileId>, ghost sofar: seq<Pass>)
      returns (e: Ending, found: bool, ghost more: seq<Pass>)
      requires i < |path| && Dirs(sofar) == path[..i]
      requires Recorded() && AllDeleted() && passes == before + sofar && delivered == was + Deliveries(sofar)
      modifies `remote, `young, `exceptions, `passes, `delivered, `getFiles
      ensures Recorded() && passes == before + more && delivered == was + Deliveries(more)
      ensures exceptions == old(exceptions) + if e.Threw? then 1 else 0
      ensures if e.Returned? then Dirs(more) == path[..i + 1] else Dirs(more) <= path
      ensures Unfinished(more) <= Unfinished(sofar) + if e.Threw? then 1 else 0
      ensures e.Returned? ==> AllDeleted() && (Found(more) <==> Found(sofar) || found)
      ensures e.Threw? ==> if getFiles then AllDeleted() else Deliveries(more) != []
    {
      more := sofar;
      ghost var p;
      e, found, p := PollDirectory(path[i]);
      if p.Some? {
        RecordExtends(before, was, sofar, p.value);
        NextDir(i, sofar, p.value);
        more := sofar + [p.value];
      }
    }

    /** The loop of runOnce() over the directories. */
    method PollAll() returns (e: Ending, found: bool, ghost more: seq<Pass>)
      requires Recorded() && AllDeleted()
      modifies `remote, `young, `exceptions, `passes, `delivered, `getFiles
      ensures AddedAll(more) && exceptions == old(exceptions) + if e.Threw? then 1 else 0
      ensures Dirs(more) <= path && Unfinished(more) <= if e.Threw? then 1 else 0
      ensures e.Returned? ==> Dirs(more) == path && (found <==> Found(more))
      ensures e.Returned? || getFiles ==> AllDeleted()
      ensures e.Threw? && !getFiles ==> Deliveries(more) != []
    {
      e, found, more := Returned, false, [];
      for i := 0 to |path|
        invariant AddedAll(more) && AllDeleted() && e.Returned? && exceptions == old(exceptions)
        invariant Dirs(more) == path[..i] && Unfinished(more) == 0 && (found <==> Found(more))
      {
        var some;
        e, some, more := PollNext(i, old(passes), old(delivered), more);
        if e.Threw? { return; }
        found := found || some;
      }
    }

    /** runOnce(): with nothing thrown there is one complete pass over each directory, in order. */
    method RunOnce() returns (e: Ending, found: bool, ghost more: seq<Pass>)
      requires Recorded() && AllDeleted() && InRounds()
      modifies `remote, `young, `exceptions, `passes, `delivered, `getFiles, `pollcnt, `rounds
      ensures AddedAll(more) && pollcnt == old(pollcnt) + 1 && rounds == old(rounds) + [Dirs(more)] && InRounds()
      ensures exceptions == old(exceptions) + if e.Threw? then 1 else 0
      ensures Dirs(more) <= path && Unfinished(more) <= if e.Threw? then 1 else 0
      ensures e.Returned? ==> Dirs(more) == path && (found <==> Found(more))
      ensures e.Returned? || getFiles ==> AllDeleted()
      ensures e.Threw? && !getFiles ==> Deliveries(more) != []
    {
      pollcnt := pollcnt + 1;
      e, found, more := PollAll();
      RoundsJoin(old(passes), more, rounds);
      rounds := rounds + [Dirs(more)];
    }

    /** What a run has added to the record since there had been so many exceptions. */
    ghost predicate AddedSince(before: seq<Pass>, was: seq<FileId>, more: seq<Pass>, exceptions0: nat)
      reads `passes, `delivered, `exceptions
    {
      && Recorded() && passes == before + more && delivered == was + Deliveries(more)
      && exceptions0 <= exceptions && Unfinished(more) <= exceptions - exceptions0
    }

    /** A run that goes on; its polls are those after the first so many. */
    ghost predicate Running(before: seq<Pass>, was: seq<FileId>, more: seq<Pass>, exceptions0: nat, first: nat)
      reads `passes, `delivered, `exceptions, `remote, `rounds
    {
      && AddedSince(before, was, more, exceptions0) && AllDeleted() && InRounds()
      && (exceptions == exceptions0 ==> forall i | first <= i < |rounds| :: rounds[i] == path)
    }

    lemma NothingAdded()
      requires Recorded() && AllDeleted() && InRounds()
      ensures Running(passes, delivered, [], exceptions, |rounds|)
    {
      assert passes == passes + [] && delivered == delivered + Deliveries([]);
    }

    /** One more poll of a run. */
    method PollAgain(ghost before: seq<Pass>, ghost was: seq<FileId>, ghost sofar: seq<Pass>, ghost exceptions0: nat,
                     ghost first: nat)
      returns (e: Ending, ghost more: seq<Pass>)
      requires Running(before, was, sofar, exceptions0, first)
      modifies `remote, `young, `exceptions, `passes, `delivered, `getFiles, `pollcnt, `rounds
      ensures AddedSince(before, was, more, exceptions0) && InRounds()
      ensures pollcnt == old(pollcnt) + 1 && |rounds| == |old(rounds)| + 1 && old(rounds) <= rounds
      ensures if e.Threw? && !getFiles then exceptions > exceptions0 && Deliveries(more) != []
              else Running(before, was, more, exceptions0, first)
    {
      var found; ghost var next;
      e, found, next := RunOnce();
      RecordJoins(before, was, sofar, next);
      UnfinishedJoin(sofar, next);
      more := sofar + next;
    }

    /** stop() may be called at any time. */
    method Stop()
      modifies `runflag, `polls
      ensures polls <= old(polls) && (runflag ==> polls < old(polls))
    {
      var stop := *;
      if stop || polls == 0 { runflag := false; } else { polls := polls - 1; }
    }

    /** The pause until the next poll or the next try. */
    method Pause()
      requires AllDeleted()
      modifies `remote, `young, `runflag, `polls
      ensures AllDeleted() && polls <= old(polls) && (runflag ==> polls < old(polls))
    {
      Meanwhile();
      Stop();
    }

    /** run(): a whole run delivers no file twice, whatever exceptions are thrown and retried, and leaves no pass
        unfinished without one; an exception that ends it was thrown after a delivery in the current pass, and every
        other one leaves no delivered file on the server.
     */
    method Run() returns (e: Ending, ghost more: seq<Pass>)
      requires Recorded() && AllDeleted() && InRounds()
      modifies this
      ensures AddedSince(old(passes), old(delivered), more, old(exceptions)) && InRounds()
      ensures old(rounds) <= rounds && pollcnt - old(pollcnt) == |rounds| - |old(rounds)|
      ensures old(runflag) ==> pollcnt > old(pollcnt)
      ensures exceptions == old(exceptions) ==>
        e.Returned? && forall i | |old(rounds)| <= i < |rounds| :: rounds[i] == path
      ensures e.Returned? ==> AllDeleted() && !runflag
      ensures e.Threw? ==> !getFiles && Deliveries(more) != []
    {
      NothingAdded();
      more := [];
      while runflag
        invariant Running(old(passes), old(delivered), more, old(exceptions), |old(rounds)|)
        invariant old(rounds) <= rounds && pollcnt - old(pollcnt) == |rounds| - |old(rounds)|
        invariant old(runflag) ==> runflag || pollcnt > old(pollcnt)
        decreases polls, runflag
      {
        e, more := PollAgain(old(passes), old(delivered), more, old(exceptions), |old(rounds)|);
        if e.Threw? && !getFiles { return; }
        Pause();
      }
      e := Returned;
    }
  }
}
