/** Host key verification (src/SSH2Client.cpp): the known_hosts file, the object store, and trust on first use. */
module HostKeys {
  import opened Ssh2Types

  /** SSH2_HOSTKEY_... */
  const TOFU := 1
  const TOFU_SESSION := 2

  /** Which entry concerns a key: libssh2 compares a key with the entries of its host and its type. */
  datatype Slot = Slot(host: string, keyType: int)

  type Entries = map<Slot, string>

  datatype Config = Config(verify: bool, policy: int, fileConfigured: bool)

  /** What can go wrong during one verification; a write that fails leaves what it leaves. */
  datatype Faults = Faults(
    noHostKey: bool, noContext: bool, readDenied: bool, statFails: bool, readFails: bool, checkFails: bool,
    addFails: bool, writeDenied: bool, parentFails: bool, writeFails: bool, leftBehind: Option<Entries>)

  const NO_FAULTS := Faults(false, false, false, false, false, false, false, false, false, false, None)

  /** One verification of the key a host presents. */
  datatype Visit = Visit(config: Config, slot: Slot, key: string, faults: Faults)

  datatype Verdict = Trusted | Mismatch | Unknown | Failure

  /** The entries of a file; a file that does not exist has none. */
  function Known(content: Option<Entries>): Entries {
    if content.Some? then content.value else map[]
  }

  predicate TrustsFirstUse(policy: int) {
    policy == TOFU || policy == TOFU_SESSION
  }

  /** Whether the entries and the policy speak for the key. */
  predicate Trusts(policy: int, known: Entries, slot: Slot, key: string) {
    if slot in known then known[slot] == key else TrustsFirstUse(policy)
  }

  /** The entries the verification is made with. */
  function Consulted(content: Option<Entries>, v: Visit): Entries {
    if v.config.fileConfigured then Known(content) else map[]
  }

  /** A fault before the key is compared. */
  predicate FailsToLoad(content: Option<Entries>, v: Visit) {
    var f := v.faults;
    || f.noHostKey || f.noContext || (!v.config.fileConfigured && v.config.policy == TOFU)
    || (v.config.fileConfigured && (f.readDenied || f.statFails || (content.Some? && f.readFails)))
  }

  /** A verification that gets as far as comparing the key. */
  predicate Compares(content: Option<Entries>, v: Visit) {
    v.config.verify && !FailsToLoad(content, v) && !v.faults.checkFails
  }

  /** A verification that gets as far as writing a new entry to the file. */
  predicate Writes(content: Option<Entries>, v: Visit) {
    var f := v.faults;
    && v.config.verify && v.config.fileConfigured && !FailsToLoad(content, v) && !f.checkFails
    && v.slot !in Known(content) && TrustsFirstUse(v.config.policy)
    && !f.addFails && !f.writeDenied && !f.parentFails
  }

  predicate KeyAccepted(content: Option<Entries>, v: Visit) {
    !v.config.verify
    || (&& !FailsToLoad(content, v) && !v.faults.checkFails
        && Trusts(v.config.policy, Consulted(content, v), v.slot, v.key)
        && (v.slot !in Consulted(content, v) ==>
              !v.faults.addFails && (v.config.fileConfigured ==> Writes(content, v) && !v.faults.writeFails)))
  }

  /** The file after the verification. */
  function After(content: Option<Entries>, v: Visit): Option<Entries> {
    if !Writes(content, v) then content
    else if v.faults.writeFails then v.faults.leftBehind
    else Some(Known(content)[v.slot := v.key])
  }

  function AfterAll(content: Option<Entries>, visits: seq<Visit>): Option<Entries>
    decreases |visits|
  {
    if visits == [] then content else AfterAll(After(content, visits[0]), visits[1..])
  }

  class KnownHostsFile {
    var content: Option<Entries>

    /** verifyHostKeyUnlocked() without an object store. */
    method VerifyHostKey(v: Visit) returns (verdict: Verdict)
      modifies this
      ensures verdict.Trusted? <==> KeyAccepted(old(content), v)
      ensures content == After(old(content), v)
      ensures verdict.Mismatch? <==>
        Compares(old(content), v) && v.slot in Consulted(old(content), v) && Consulted(old(content), v)[v.slot] != v.key
      ensures verdict.Unknown? <==>
        Compares(old(content), v) && v.slot !in Consulted(old(content), v) && !TrustsFirstUse(v.config.policy)
    {
      if !v.config.verify { return Trusted; }
      if v.faults.noHostKey || v.faults.noContext { return Failure; }
      if !v.config.fileConfigured && v.config.policy == TOFU { return Failure; }
      var nh: Entries := map[];
      if v.config.fileConfigured {
        if v.faults.readDenied || v.faults.statFails { return Failure; }
        if content.Some? {
          if v.faults.readFails { return Failure; }
          nh := content.value;
        }
      }
      if v.faults.checkFails { return Failure; }
      if v.slot in nh {
        return if nh[v.slot] == v.key then Trusted else Mismatch;
      }
      if v.config.policy != TOFU && v.config.policy != TOFU_SESSION { return Unknown; }
      if v.faults.addFails { return Failure; }
      nh := nh[v.slot := v.key];
      if v.config.fileConfigured {
        if v.faults.writeDenied || v.faults.parentFails { return Failure; }
        if v.faults.writeFails {
          content := v.faults.leftBehind;
          return Failure;
        }
        content := Some(nh);
      }
      verdict := Trusted;
    }
  }

  /** Without verification every key is accepted and the file is left alone. */
  lemma UnverifiedAcceptsAll(content: Option<Entries>, v: Visit)
    ensures !v.config.verify ==> KeyAccepted(content, v) && After(content, v) == content
  {
  }

  /** With a file, a key is accepted only if what there is of the file was read, and it is then in the file. */
  lemma AcceptedIsRead(content: Option<Entries>, v: Visit)
    requires v.config.verify && v.config.fileConfigured && KeyAccepted(content, v)
    ensures !v.faults.readDenied && !v.faults.statFails && (content.Some? ==> !v.faults.readFails)
    ensures Holds(After(content, v), v.slot, v.key)
    ensures v.slot in Known(content) ==> Holds(content, v.slot, v.key)
  {
  }

  // ---- trust on first use is sticky ----------------------------------------------------------------------------

  predicate Holds(content: Option<Entries>, slot: Slot, key: string) {
    slot in Known(content) && Known(content)[slot] == key
  }

  /** Every write to the file that fails leaves the entry in it. */
  predicate FailedWritesKeep(content: Option<Entries>, visits: seq<Visit>, slot: Slot, key: string)
    decreases |visits|
  {
    visits == []
    || (&& (Writes(content, visits[0]) && visits[0].faults.writeFails ==> Holds(visits[0].faults.leftBehind, slot, key))
        && FailedWritesKeep(After(content, visits[0]), visits[1..], slot, key))
  }

  /** The entry is in the file at every moment. */
  ghost predicate AlwaysHolds(content: Option<Entries>, visits: seq<Visit>, slot: Slot, key: string) {
    forall n: nat | n <= |visits| :: Holds(AfterAll(content, visits[..n]), slot, key)
  }

  lemma {:induction false} EntryStays(content: Option<Entries>, visits: seq<Visit>, slot: Slot, key: string)
    requires Holds(content, slot, key) && FailedWritesKeep(content, visits, slot, key)
    ensures Holds(AfterAll(content, visits), slot, key)
    decreases |visits|
  {
    if visits != [] {
      EntryStays(After(content, visits[0]), visits[1..], slot, key);
    }
  }

  lemma {:induction false} FailedWritesKeepPrefix(content: Option<Entries>, visits: seq<Visit>, n: nat, slot: Slot,
                                                  key: string)
    requires FailedWritesKeep(content, visits, slot, key) && n <= |visits|
    ensures FailedWritesKeep(content, visits[..n], slot, key)
    decreases |visits|
  {
    if n > 0 {
      assert visits[..n][0] == visits[0] && visits[..n][1..] == visits[1..][..n - 1];
      FailedWritesKeepPrefix(After(content, visits[0]), visits[1..], n - 1, slot, key);
    }
  }

  /** The moments after the first visit. */
  lemma AlwaysHoldsAfter(content: Option<Entries>, visits: seq<Visit>, slot: Slot, key: string)
    requires visits != [] && AlwaysHolds(content, visits, slot, key)
    ensures AlwaysHolds(After(content, visits[0]), visits[1..], slot, key)
  {
    forall n: nat | n <= |visits[1..]|
      ensures Holds(AfterAll(After(content, visits[0]), visits[1..][..n]), slot, key)
    {
      assert visits[..n + 1][0] == visits[0] && visits[..n + 1][1..] == visits[1..][..n];
      assert Holds(AfterAll(content, visits[..n + 1]), slot, key);
    }
  }

  lemma {:induction false} LostOtherwise(content: Option<Entries>, visits: seq<Visit>, slot: Slot, key: string)
    requires AlwaysHolds(content, visits, slot, key)
    ensures FailedWritesKeep(content, visits, slot, key)
    decreases |visits|
  {
    if visits != [] {
      AlwaysHoldsAfter(content, visits, slot, key);
      LostOtherwise(After(content, visits[0]), visits[1..], slot, key);
      assert visits[1..][..0] == [];
      assert Holds(AfterAll(After(content, visits[0]), []), slot, key);
    }
  }

  /** An entry stays in the file exactly if every write that fails leaves it there. */
  lemma EntryStaysIff(content: Option<Entries>, visits: seq<Visit>, slot: Slot, key: string)
    requires Holds(content, slot, key)
    ensures FailedWritesKeep(content, visits, slot, key) <==> AlwaysHolds(content, visits, slot, key)
  {
    if FailedWritesKeep(content, visits, slot, key) {
      forall n: nat | n <= |visits|
        ensures Holds(AfterAll(content, visits[..n]), slot, key)
      {
        FailedWritesKeepPrefix(content, visits, n, slot, key);
        EntryStays(content, visits[..n], slot, key);
      }
    } else if AlwaysHolds(content, visits, slot, key) {
      LostOtherwise(content, visits, slot, key);
    }
  }

  /** A verification with the file in which nothing goes wrong accepts the key. */
  predicate Accepts(content: Option<Entries>, policy: int, slot: Slot, key: string) {
    KeyAccepted(content, Visit(Config(true, policy, true), slot, key, NO_FAULTS))
  }

  /** Whatever the policy, this key is accepted and no other. */
  ghost predicate Pinned(content: Option<Entries>, slot: Slot, key: string) {
    forall policy, k :: Accepts(content, policy, slot, k) <==> k == key
  }

  /** A key is pinned exactly if it has an entry; then no verification with the file accepts another, faults or not. */
  lemma PinnedIff(content: Option<Entries>, slot: Slot, key: string)
    ensures Pinned(content, slot, key) <==> Holds(content, slot, key)
    ensures Holds(content, slot, key) ==>
      forall v: Visit | v.config.verify && v.config.fileConfigured && v.slot == slot && KeyAccepted(content, v) ::
        v.key == key
  {
    if slot !in Known(content) {
      assert Accepts(content, TOFU, slot, key + "x");
    } else if Known(content)[slot] != key {
      assert Accepts(content, TOFU, slot, Known(content)[slot]);
    }
  }

  /** Once a key was accepted with a file it is pinned for good, whatever other verifications, hosts, policies and
      faults follow, exactly if every write that fails meanwhile leaves its entry in the file.
   */
  lemma TrustIsSticky(content: Option<Entries>, first: Visit, later: seq<Visit>)
    requires first.config.verify && first.config.fileConfigured && KeyAccepted(content, first)
    ensures var c := After(content, first);
            FailedWritesKeep(c, later, first.slot, first.key)
            <==> forall n: nat | n <= |later| :: Pinned(AfterAll(c, later[..n]), first.slot, first.key)
  {
    var c := After(content, first);
    EntryStaysIff(c, later, first.slot, first.key);
    forall n: nat | n <= |later|
      ensures Pinned(AfterAll(c, later[..n]), first.slot, first.key)
              <==> Holds(AfterAll(c, later[..n]), first.slot, first.key)
    {
      PinnedIff(AfterAll(c, later[..n]), first.slot, first.key);
    }
  }

  /** It is enough that no write fails. */
  lemma {:induction false} NoFailedWrites(content: Option<Entries>, visits: seq<Visit>, slot: Slot, key: string)
    requires forall i: nat | i < |visits| ::
      Writes(AfterAll(content, visits[..i]), visits[i]) ==> !visits[i].faults.writeFails
    ensures FailedWritesKeep(content, visits, slot, key)
    decreases |visits|
  {
    if visits != [] {
      var c := After(content, visits[0]);
      assert visits[..0] == [] && AfterAll(content, visits[..0]) == content;
      forall i: nat | i < |visits[1..]|
        ensures Writes(AfterAll(c, visits[1..][..i]), visits[1..][i]) ==> !visits[1..][i].faults.writeFails
      {
        assert visits[..i + 1][0] == visits[0] && visits[..i + 1][1..] == visits[1..][..i];
        assert AfterAll(content, visits[..i + 1]) == AfterAll(c, visits[1..][..i]);
        assert visits[1..][i] == visits[i + 1];
      }
      NoFailedWrites(c, visits[1..], slot, key);
    }
  }

  /** A write that fails for another host can lose the entry, and another key is then accepted. */
  lemma FailedWriteForgets()
    ensures exists first: Visit, between: seq<Visit>, later: Visit ::
      && KeyAccepted(None, first) && first.config.fileConfigured && first.config.policy == TOFU
      && later.slot == first.slot && later.key != first.key && later.config == first.config
      && !FailedWritesKeep(After(None, first), between, first.slot, first.key)
      && KeyAccepted(AfterAll(After(None, first), between), later)
  {
    var tofu := Config(true, TOFU, true);
    var first := Visit(tofu, Slot("a", 1), "key", NO_FAULTS);
    var other := Visit(tofu, Slot("b", 1), "other", NO_FAULTS.(writeFails := true));
    var later := Visit(tofu, Slot("a", 1), "changed", NO_FAULTS);
    var c := After(None, first);
    assert AfterAll(c, [other]) == After(c, other) by {
      assert AfterAll(After(c, other), [other][1..]) == After(c, other);
    }
    assert Writes(c, other) && !FailedWritesKeep(c, [other], first.slot, first.key);
    assert KeyAccepted(AfterAll(After(None, first), [other]), later);
  }

  /** Without a file nothing is remembered: whatever was verified before, only the session policy accepts a key, and it
      accepts every key.
   */
  lemma {:induction false} NoFileNoMemory(content: Option<Entries>, visits: seq<Visit>, v: Visit)
    requires forall u | u in visits :: !u.config.fileConfigured
    requires v.config.verify && !v.config.fileConfigured && v.faults == NO_FAULTS
    ensures AfterAll(content, visits) == content
    ensures KeyAccepted(AfterAll(content, visits), v) <==> v.config.policy == TOFU_SESSION
    decreases |visits|
  {
    if visits != [] {
      assert visits[0] in visits;
      NoFileNoMemory(content, visits[1..], v);
    }
  }

  // ---- the object store ----------------------------------------------------------------------------------------

  /** What a call of the store returns. */
  datatype Response = Raised | NoDecision | Decision(name: string)

  predicate Success(r: Response) {
    r.Decision? && r.name in {"matched", "added", "accepted-session"}
  }

  /** A store that implements a map.  Other clients use it too, and a call of an unreliable store may fail. */
  class HostKeyStore {
    const reliable: bool
    var entries: Entries

    constructor (entries: Entries, reliable: bool)
      ensures this.entries == entries && this.reliable == reliable
    {
      this.entries, this.reliable := entries, reliable;
    }

    method VerifyHostKey(slot: Slot, key: string) returns (r: Response)
      ensures reliable ==> r.Decision?
      ensures r.Decision? ==>
        r.name == if slot !in entries then "unknown" else if entries[slot] == key then "matched" else "mismatch"
    {
      r := Decision(if slot !in entries then "unknown" else if entries[slot] == key then "matched" else "mismatch");
      if !reliable { r := Failing(r); }
    }

    /** Looks the key up and adds it in one step. */
    method AcceptHostKeyIfAbsent(slot: Slot, key: string) returns (r: Response)
      modifies this
      ensures reliable ==> r.Decision?
      ensures entries == if slot in old(entries) then old(entries) else old(entries)[slot := key]
      ensures r.Decision? ==> (Success(r) <==> entries[slot] == key)
    {
      if slot !in entries {
        entries := entries[slot := key];
        r := Decision("added");
      } else {
        r := Decision(if entries[slot] == key then "matched" else "mismatch");
      }
      if !reliable { r := Failing(r); }
    }

    /** An exception, or a response without a decision, instead of the result. */
    static method Failing(r: Response) returns (r': Response)
      ensures r' == r || !r'.Decision?
    {
      var raised, empty := *, *;
      r' := if raised then Raised else if empty then NoDecision else r;
    }

    /** What other clients make of the entries meanwhile. */
    method Meanwhile(entries: Entries)
      modifies this
      ensures this.entries == entries
    {
      this.entries := entries;
    }
  }

  function WithEntry(entries: Entries, slot: Slot, key: string): Entries {
    if slot in entries then entries else entries[slot := key]
  }

  /** verifyHostKeyWithStore().  The client is unlocked and other clients may change the store in any way before each of
      the calls.  A key that is accepted is the one in the store at that moment, so two first uses that race cannot
      trust different keys; all the client itself ever does to the store is to add an entry where there is none.
   */
  method VerifyWithStore(policy: int, store: HostKeyStore, slot: Slot, key: string, before: Entries, between: Entries)
    returns (ok: bool)
    modifies store
    ensures store.entries == before
            || (slot !in before && TrustsFirstUse(policy) && store.entries == WithEntry(between, slot, key))
    ensures store.reliable ==>
      store.entries == if slot in before || !TrustsFirstUse(policy) then before else WithEntry(between, slot, key)
    ensures ok ==> slot in store.entries && store.entries[slot] == key
    ensures !ok && store.reliable && TrustsFirstUse(policy) ==> slot in store.entries && store.entries[slot] != key
    ensures store.reliable && before == old(store.entries) && between == before ==>
      && (ok <==> Trusts(policy, old(store.entries), slot, key))
      && store.entries == if ok then old(store.entries)[slot := key] else old(store.entries)
  {
    store.Meanwhile(before);
    var r := store.VerifyHostKey(slot, key);
    if Success(r) {
      assert store.entries == store.entries[slot := key];
      return true;
    }
    ok := false;
    if r == Decision("unknown") && (policy == TOFU || policy == TOFU_SESSION) {
      store.Meanwhile(between);
      r := store.AcceptHostKeyIfAbsent(slot, key);
      ok := Success(r);
    }
  }

  /** The same verifications with the file and with a store that started with the same entries. */
  method VerifyBothWays(file: KnownHostsFile, store: HostKeyStore, visits: seq<Visit>)
    returns (fileAccepts: seq<bool>, storeAccepts: seq<bool>)
    requires Known(file.content) == store.entries && store.reliable
    requires forall v | v in visits :: v.config.verify && v.config.fileConfigured && v.faults == NO_FAULTS
    modifies file, store
    ensures |fileAccepts| == |visits| && fileAccepts == storeAccepts
    ensures Known(file.content) == store.entries && file.content == AfterAll(old(file.content), visits)
  {
    fileAccepts, storeAccepts := [], [];
    var i := 0;
    assert visits[0..] == visits;
    while i < |visits|
      invariant i <= |visits| && Known(file.content) == store.entries
      invariant |fileAccepts| == i && fileAccepts == storeAccepts
      invariant AfterAll(file.content, visits[i..]) == AfterAll(old(file.content), visits)
    {
      var v := visits[i];
      assert visits[i..][0] == v && visits[i..][1..] == visits[i + 1..];
      var verdict := file.VerifyHostKey(v);
      var ok := VerifyWithStore(v.config.policy, store, v.slot, v.key, store.entries, store.entries);
      fileAccepts, storeAccepts := fileAccepts + [verdict.Trusted?], storeAccepts + [ok];
      i := i + 1;
    }
  }
}
