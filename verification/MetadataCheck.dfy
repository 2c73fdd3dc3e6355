/** The check around an ELF editing command (debian/preserve-aot-metadata.py): every module that had a metadata record
    before the command has the same record after it.
 */
module MetadataCheck {
  import opened Ssh2Types
  import opened NoteWalker

  /** read_module_info(); nothing else about it matters here. */
  type Reader = Bytes -> Result<Bytes>

  datatype Module = Module(path: string, regular: bool, data: Bytes)

  /** What is found at a path after the command. */
  datatype After = Missing | Symlink | Present(data: Bytes)

  datatype CheckError =
    | CommandFailed
    | NotReadable(path: string)
    | ReplacedBySymlink(path: string)
    | Removed(path: string)
    | Changed(path: string)

  /** A failure before the command, or the errors after it. */
  datatype Outcome = Rejected | Checked(errors: seq<CheckError>)

  /** A record that has to survive. */
  datatype Saved = Saved(path: string, record: Bytes)

  predicate Preserved(read: Reader, s: Saved, after: string -> After) {
    after(s.path).Present? && read(after(s.path).data) == Ok(s.record)
  }

  predicate IsRejected(read: Reader, modules: seq<Module>) {
    exists m | m in modules :: m.regular && read(m.data).ValueError?
  }

  function RecordOf(read: Reader, m: Module): seq<Saved> {
    var info := read(m.data);
    if m.regular && info.Ok? && info.value != [] then [Saved(m.path, info.value)] else []
  }

  /** The records of the modules that have one. */
  function RecordsBefore(read: Reader, modules: seq<Module>): seq<Saved> {
    if modules == [] then []
    else RecordsBefore(read, modules[..|modules| - 1]) + RecordOf(read, modules[|modules| - 1])
  }

  /** How many of the records were lost or changed. */
  function Losses(read: Reader, saved: seq<Saved>, after: string -> After): nat {
    if saved == [] then 0
    else Losses(read, saved[..|saved| - 1], after) + if Preserved(read, saved[|saved| - 1], after) then 0 else 1
  }

  predicate About(e: CheckError, path: string) {
    e != CommandFailed && e.path == path
  }

  /** The part of preserve() before the command. */
  method SaveRecords(read: Reader, modules: seq<Module>) returns (r: Result<seq<Saved>>)
    ensures r.ValueError? <==> IsRejected(read, modules)
    ensures r.Ok? ==> r.value == RecordsBefore(read, modules) && forall s | s in r.value :: s.record != []
  {
    var saved: seq<Saved> := [];
    for i := 0 to |modules|
      invariant forall k | 0 <= k < i && modules[k].regular :: read(modules[k].data).Ok?
      invariant saved == RecordsBefore(read, modules[..i]) && forall s | s in saved :: s.record != []
    {
      var m := modules[i];
      assert modules[..i + 1][..i] == modules[..i];
      if m.regular {
        var record := read(m.data);
        if record.ValueError? {
          assert m in modules;
          return ValueError;
        }
        if record.value != [] {
          saved := saved + [Saved(m.path, record.value)];
        }
      }
    }
    assert modules[..|modules|] == modules;
    r := Ok(saved);
  }

  /** The check of one module after the command. */
  method CheckModule(read: Reader, s: Saved, after: string -> After) returns (e: Option<CheckError>)
    requires s.record != []
    ensures e.None? <==> Preserved(read, s, after)
    ensures e.Some? ==> About(e.value, s.path)
  {
    match after(s.path)
    case Missing => e := Some(NotReadable(s.path));
    case Symlink => e := Some(ReplacedBySymlink(s.path));
    case Present(data) =>
      var current := read(data);
      e := if current.ValueError? then Some(NotReadable(s.path))
           else if current.value == [] then Some(Removed(s.path))
           else if current.value != s.record then Some(Changed(s.path))
           else None;
  }

  /** The part of preserve() after the command, which adds to the errors. */
  method CheckSaved(read: Reader, saved: seq<Saved>, after: string -> After) returns (errors: seq<CheckError>)
    requires forall s | s in saved :: s.record != []
    ensures |errors| == Losses(read, saved, after) && CommandFailed !in errors
    ensures forall s | s in saved && !Preserved(read, s, after) :: exists e | e in errors :: About(e, s.path)
  {
    errors := [];
    for i := 0 to |saved|
      invariant |errors| == Losses(read, saved[..i], after) && CommandFailed !in errors
      invariant forall k | 0 <= k < i && !Preserved(read, saved[k], after) ::
        exists e | e in errors :: About(e, saved[k].path)
    {
      assert saved[..i + 1][..i] == saved[..i];
      var e := CheckModule(read, saved[i], after);
      if e.Some? {
        ghost var was := errors;
        errors := errors + [e.value];
        assert e.value in errors && forall x | x in was :: x in errors;
      }
    }
    assert saved[..|saved|] == saved;
  }

  /** preserve(): there is an error for the command if it failed and one for every module whose record did not survive,
      also when another check or the command has failed.
   */
  method Preserve(read: Reader, modules: seq<Module>, commandOk: bool, after: string -> After)
    returns (outcome: Outcome)
    ensures outcome.Rejected? <==> IsRejected(read, modules)
    ensures outcome.Checked? ==>
      && |outcome.errors| == (if commandOk then 0 else 1) + Losses(read, RecordsBefore(read, modules), after)
      && (CommandFailed in outcome.errors <==> !commandOk)
      && forall s | s in RecordsBefore(read, modules) && !Preserved(read, s, after) ::
           exists e | e in outcome.errors :: About(e, s.path)
  {
    var r := SaveRecords(read, modules);
    if r.ValueError? { return Outcome.Rejected; }
    var errors := CheckSaved(read, r.value, after);
    var first := if commandOk then [] else [CommandFailed];
    assert forall e | e in errors :: e in first + errors;
    outcome := Checked(first + errors);
  }

  /** No error means that every record is the one it was before. */
  lemma {:induction false} NoLosses(read: Reader, saved: seq<Saved>, after: string -> After)
    ensures Losses(read, saved, after) == 0 <==> forall s | s in saved :: Preserved(read, s, after)
  {
    if saved != [] {
      var n := |saved| - 1;
      NoLosses(read, saved[..n], after);
      assert saved == saved[..n] + [saved[n]];
    }
  }

  /** The whole check succeeds exactly when the command did and every module that had a record still has it. */
  method PreserveModules(modules: seq<Module>, commandOk: bool, after: string -> After) returns (outcome: Outcome)
    ensures outcome == Checked([]) <==>
      && !IsRejected(ModuleInfo, modules) && commandOk
      && forall s | s in RecordsBefore(ModuleInfo, modules) :: Preserved(ModuleInfo, s, after)
  {
    outcome := Preserve(ModuleInfo, modules, commandOk, after);
    NoLosses(ModuleInfo, RecordsBefore(ModuleInfo, modules), after);
  }
}
