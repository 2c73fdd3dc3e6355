/** What a run of an authentication plan leaves in the history: where the keys of its calls come from, and what the
    reported method says about its last event.
 */
module AuthTrace {
  import opened Ssh2Types
  import opened AuthSemantics
  import AuthPlan

  // ---- where keys come from ------------------------------------------------------------------------------------

  /** At position p of a history that began at from, the provider resolved a candidate of the list it sent in the same
      run into the attempt.
   */
  ghost predicate NamedAt(w: World, from: nat, h: Log, p: int, a: Attempt) {
    && from < p < |h| && h[p].CandidateResolved? && h[p].ok
    && exists f | from <= f < p :: NamedFrom(w, h, f, p, a)
  }

  /** The list was sent at position f. */
  predicate NamedFrom(w: World, h: Log, f: int, p: int, a: Attempt)
    requires 0 <= f < p < |h| && h[p].CandidateResolved?
  {
    && h[f] == CandidatesFetched(true) && w.env.candidates(h[..f]).Some?
    && h[p].index < |w.env.candidates(h[..f]).value|
    && StandsFor(w, w.env.candidates(h[..f]).value[h[p].index], w.env.material(h[..p], h[p].index), a)
  }

  /** The events that are about an attempt: its access check and its call. */
  predicate Uses(e: Event) {
    e.AuthCall? || e.AccessChecked?
  }

  /** The attempt of the event at position i is one of the plan's, or the provider named it immediately before; a call
      with key files directly follows its own successful check.
   */
  ghost predicate SourcedAt(w: World, plan: seq<Attempt>, from: nat, h: Log, i: int)
    requires 0 <= i < |h| && Uses(h[i])
  {
    var a := h[i].attempt;
    var checked := h[i].AuthCall? && a.kind.PubkeyFile?;
    && (checked ==> i > from && h[i - 1] == AccessChecked(a, true))
    && (a in plan || NamedAt(w, from, h, if checked then i - 2 else i - 1, a))
  }

  ghost predicate Sourced(w: World, plan: seq<Attempt>, from: nat, h: Log) {
    forall i | from <= i < |h| && Uses(h[i]) :: SourcedAt(w, plan, from, h, i)
  }

  lemma NamedStays(w: World, from: nat, h: Log, h': Log, p: int, a: Attempt)
    requires h <= h' && NamedAt(w, from, h, p, a)
    ensures NamedAt(w, from, h', p, a)
  {
    var f :| from <= f < p && NamedFrom(w, h, f, p, a);
    assert h'[..f] == h[..f] && h'[..p] == h[..p];
    assert NamedFrom(w, h', f, p, a);
  }

  lemma NamedBefore(w: World, from: nat, h: Log, h': Log, p: int, a: Attempt)
    requires h' <= h && p < |h'| && NamedAt(w, from, h, p, a)
    ensures NamedAt(w, from, h', p, a)
  {
    var f :| from <= f < p && NamedFrom(w, h, f, p, a);
    assert h'[..f] == h[..f] && h'[..p] == h[..p];
    assert NamedFrom(w, h', f, p, a);
  }

  /** What is sourced in a history is sourced in its beginnings. */
  lemma SourcedPrefix(w: World, plan: seq<Attempt>, from: nat, h: Log, h': Log)
    requires Sourced(w, plan, from, h) && h' <= h
    ensures Sourced(w, plan, from, h')
  {
    forall i | from <= i < |h'| && Uses(h'[i])
      ensures SourcedAt(w, plan, from, h', i)
    {
      assert SourcedAt(w, plan, from, h, i);
      var a := h[i].attempt;
      var p := if h[i].AuthCall? && a.kind.PubkeyFile? then i - 2 else i - 1;
      if a !in plan { NamedBefore(w, from, h, h', p, a); }
    }
  }

  /** An event that uses no attempt, or a sourced one, keeps a history sourced. */
  lemma SourcedAppend(w: World, plan: seq<Attempt>, from: nat, h: Log, e: Event)
    requires Sourced(w, plan, from, h) && from <= |h|
    requires Uses(e) ==> SourcedAt(w, plan, from, h + [e], |h|)
    ensures Sourced(w, plan, from, h + [e])
  {
    var h' := h + [e];
    forall i | from <= i < |h'| && Uses(h'[i])
      ensures SourcedAt(w, plan, from, h', i)
    {
      if i < |h| {
        assert SourcedAt(w, plan, from, h, i);
        var a := h[i].attempt;
        var p := if h[i].AuthCall? && a.kind.PubkeyFile? then i - 2 else i - 1;
        if a !in plan { NamedStays(w, from, h, h', p, a); }
      }
    }
  }

  /** The attempt may be made now. */
  ghost predicate Allowed(w: World, plan: seq<Attempt>, from: nat, h: Log, a: Attempt) {
    a in plan || NamedAt(w, from, h, |h| - 1, a)
  }

  lemma CallSourced(w: World, plan: seq<Attempt>, from: nat, h: Log, a: Attempt)
    requires Sourced(w, plan, from, h) && from <= |h|
    requires if a.kind.PubkeyFile?
             then |h| > from && h[|h| - 1] == AccessChecked(a, true) && Allowed(w, plan, from, h[..|h| - 1], a)
             else Allowed(w, plan, from, h, a)
    ensures Sourced(w, plan, from, RunCall(w, a, h).history)
  {
    var e := AuthCall(a, Verdict(w.env.accepts(h, a)));
    var before := if a.kind.PubkeyFile? then h[..|h| - 1] else h;
    if a !in plan { NamedStays(w, from, before, h + [e], |before| - 1, a); }
    SourcedAppend(w, plan, from, h, e);
  }

  lemma SingleSourced(w: World, plan: seq<Attempt>, from: nat, h: Log, a: Attempt)
    requires Sourced(w, plan, from, h) && from <= |h| && Allowed(w, plan, from, h, a)
    ensures Sourced(w, plan, from, RunSingle(w, a, h).history)
  {
    if a.kind.PubkeyFile? {
      var e := AccessChecked(a, w.env.access(h, a));
      if a !in plan { NamedStays(w, from, h, h + [e], |h| - 1, a); }
      SourcedAppend(w, plan, from, h, e);
      assert (h + [e])[..|h|] == h;
      if w.env.access(h, a) { CallSourced(w, plan, from, h + [e], a); }
    } else {
      CallSourced(w, plan, from, h, a);
    }
  }

  lemma {:induction false} IdentitiesSourced(w: World, plan: seq<Attempt>, from: nat, h: Log, k: nat, count: nat)
    requires Sourced(w, plan, from, h) && from <= |h|
    ensures Sourced(w, plan, from, RunIdentities(w, k, count, h).history)
    decreases count - k
  {
    if k < count {
      var e := AgentCall(k, Verdict(w.env.agentAccepts(h, k)));
      SourcedAppend(w, plan, from, h, e);
      if !w.env.agentAccepts(h, k) { IdentitiesSourced(w, plan, from, h + [e], k + 1, count); }
    }
  }

  lemma AgentSourced(w: World, plan: seq<Attempt>, from: nat, h: Log)
    requires Sourced(w, plan, from, h) && from <= |h|
    ensures Sourced(w, plan, from, RunAgent(w, h).history)
  {
    SourcedAppend(w, plan, from, h, AgentOpened(w.env.agentIdentities(h).Some?));
    if w.env.agentIdentities(h).Some? {
      IdentitiesSourced(w, plan, from, h + [AgentOpened(true)], 0, w.env.agentIdentities(h).value);
    }
  }

  /** The list of candidates was sent at position f of the run. */
  predicate SentAt(w: World, from: nat, h: Log, f: nat, cs: seq<Candidate>) {
    from <= f < |h| && h[f] == CandidatesFetched(true) && w.env.candidates(h[..f]) == Some(cs)
  }

  lemma SentStays(w: World, from: nat, h: Log, h': Log, f: nat, cs: seq<Candidate>)
    requires h <= h' && SentAt(w, from, h, f, cs)
    ensures SentAt(w, from, h', f, cs)
  {
    assert h'[..f] == h[..f];
  }

  /** A candidate that was just resolved names its attempts. */
  lemma ResolvedNames(w: World, from: nat, h: Log, f: nat, cs: seq<Candidate>, i: nat, sub: seq<Attempt>)
    requires SentAt(w, from, h, f, cs) && i < |cs| && ResolveCandidate(w, cs[i], w.env.material(h, i)) == Some(sub)
    ensures forall a | a in sub :: NamedAt(w, from, h + [CandidateResolved(i, true)], |h|, a)
  {
    var h' := h + [CandidateResolved(i, true)];
    assert h'[..f] == h[..f] && h'[..|h|] == h;
    ResolvedAsMeant(w, cs[i], w.env.material(h, i), Some(sub));
    forall a | a in sub
      ensures NamedAt(w, from, h', |h|, a)
    {
      assert NamedFrom(w, h', f, |h|, a);
    }
  }

  /** The one attempt a candidate stands for is sourced. */
  lemma SubPlanSourced(w: World, plan: seq<Attempt>, from: nat, h: Log, sub: seq<Attempt>)
    requires Sourced(w, plan, from, h) && from <= |h| && |sub| <= 1 && Markers(sub) == 0
    requires forall a | a in sub :: NamedAt(w, from, h, |h| - 1, a)
    ensures Sourced(w, plan, from, RunPlan(w, sub, h).history)
  {
    if sub != [] {
      assert sub[0] in sub && sub[1..] == [];
      if sub[0].kind.Agent? { AgentSourced(w, plan, from, h); } else { SingleSourced(w, plan, from, h, sub[0]); }
    }
  }

  lemma {:induction false} CandidatesSourced(w: World, plan: seq<Attempt>, from: nat, h: Log, f: nat,
                                             cs: seq<Candidate>, i: nat)
    requires Sourced(w, plan, from, h) && from <= |h| && SentAt(w, from, h, f, cs)
    ensures Sourced(w, plan, from, RunCandidates(w, cs, i, h).history)
    decreases |cs| - i
  {
    if i < |cs| {
      var sub := ResolveCandidate(w, cs[i], w.env.material(h, i));
      var h' := h + [CandidateResolved(i, sub.Some?)];
      SourcedAppend(w, plan, from, h, CandidateResolved(i, sub.Some?));
      if sub.Some? {
        ResolvedNames(w, from, h, f, cs, i, sub.value);
        SubPlanSourced(w, plan, from, h', sub.value);
        var r := RunPlan(w, sub.value, h');
        PlanExtends(w, sub.value, h');
        SentStays(w, from, h, r.history, f, cs);
        if r.status.Continue? { CandidatesSourced(w, plan, from, r.history, f, cs, i + 1); }
      }
    }
  }

  lemma ProviderSourced(w: World, plan: seq<Attempt>, from: nat, h: Log)
    requires Sourced(w, plan, from, h) && from <= |h|
    ensures Sourced(w, plan, from, RunProvider(w, h).history)
  {
    if w.publickey {
      var list := w.env.candidates(h);
      var h' := h + [CandidatesFetched(list.Some?)];
      SourcedAppend(w, plan, from, h, CandidatesFetched(list.Some?));
      if list.Some? {
        assert h'[..|h|] == h;
        CandidatesSourced(w, plan, from, h', |h|, list.value, 0);
      }
    }
  }

  lemma {:induction false} PlanSourced(w: World, plan: seq<Attempt>, from: nat, rest: seq<Attempt>, h: Log)
    requires Sourced(w, plan, from, h) && from <= |h| && forall a | a in rest :: a in plan
    ensures Sourced(w, plan, from, RunPlan(w, rest, h).history)
    decreases |rest|
  {
    if rest != [] {
      assert rest[0] in rest;
      match rest[0].kind {
        case Agent => AgentSourced(w, plan, from, h);
        case Provider => ProviderSourced(w, plan, from, h);
        case _ => SingleSourced(w, plan, from, h, rest[0]);
      }
      var r := RunAttempt(w, rest[0], h);
      AttemptExtends(w, rest[0], h);
      if r.status.Continue? { PlanSourced(w, plan, from, rest[1..], r.history); }
    }
  }

  /** An attempt with the keys of the settings: the key files with the public one first and the password of the user,
      the key in memory with its own password or else the user's, or a login without a key.
   */
  predicate Configured(s: AuthPlan.Settings, a: Attempt) {
    match a.kind
    case PubkeyFile => a.pubKey == s.keysPub && a.privKey == s.keysPriv && a.passphrase == s.password
    case PubkeyMemory =>
      && a.pubKey == s.pubData && a.privKey == s.privData && a.privKey != ""
      && (if s.keysPassphrase != "" then a.passphrase == s.keysPassphrase else a.passphrase == s.password)
    case Password | KeyboardInteractive => s.password != "" && a.pubKey == "" && a.privKey == ""
    case _ => a.pubKey == "" && a.privKey == "" && a.passphrase == ""
  }

  /** Every attempt of a plan has the keys of the settings. */
  lemma PlanIsConfigured(s: AuthPlan.Settings, memoryKeys: bool, ad: AuthPlan.Advertised, plan: seq<Attempt>)
    requires AuthPlan.IsPlan(s, memoryKeys, ad, plan)
    ensures forall a | a in plan :: Configured(s, a)
  {
    forall a | a in plan
      ensures Configured(s, a)
    {
      assert AuthPlan.Offered(s, memoryKeys, ad, a);
    }
  }

  /** Every key that is checked or used in a run is one of the settings or was named by the provider immediately before,
      and key files are used directly after their own check.
   */
  ghost predicate KeysAreNamed(w: World, s: AuthPlan.Settings, from: nat, h: Log) {
    forall i | from <= i < |h| && Uses(h[i]) ::
      var a := h[i].attempt;
      var checked := h[i].AuthCall? && a.kind.PubkeyFile?;
      && (checked ==> i > from && h[i - 1] == AccessChecked(a, true))
      && (Configured(s, a) || NamedAt(w, from, h, if checked then i - 2 else i - 1, a))
  }

  /** The keys of any part of a plan's run. */
  lemma RunNamesKeys(w: World, s: AuthPlan.Settings, memoryKeys: bool, ad: AuthPlan.Advertised, plan: seq<Attempt>,
                     h: Log, after: Log)
    requires AuthPlan.IsPlan(s, memoryKeys, ad, plan) && after <= RunPlan(w, plan, h).history
    ensures KeysAreNamed(w, s, |h|, after)
  {
    PlanSourced(w, plan, |h|, plan, h);
    SourcedPrefix(w, plan, |h|, RunPlan(w, plan, h).history, after);
    PlanIsConfigured(s, memoryKeys, ad, plan);
    forall i | |h| <= i < |after| && Uses(after[i])
      ensures SourcedAt(w, plan, |h|, after, i)
    {
    }
  }

  // ---- what the reported method says ---------------------------------------------------------------------------

  predicate IsLogin(e: Event) {
    (e.AuthCall? || e.AgentCall?) && e.answer.Accepted?
  }

  /** What is reported after this call has logged in. */
  predicate Reports(e: Event, name: string) {
    match e
    case AgentCall(_, _) => name == "agent"
    case AuthCall(a, _) =>
      (match a.kind
       case PubkeyFile | PubkeyMemory => name == "publickey"
       case Password => name == "password"
       case KeyboardInteractive => name == "keyboard-interactive"
       case _ => false)
    case _ => false
  }

  /** From the history h on nothing was accepted but perhaps the last call; if it was, the run has logged in and reports
      the method of this call, and only then.
   */
  ghost predicate UntilLogin(h: Log, r: Outcome) {
    && h <= r.history && (forall i | |h| <= i < |r.history| - 1 :: !IsLogin(r.history[i]))
    && (r.status.LoggedIn? <==> |r.history| > |h| && IsLogin(r.history[|r.history| - 1]))
    && (r.status.LoggedIn? ==> Reports(r.history[|r.history| - 1], r.status.reported))
  }

  lemma UntilLoginOneMore(h: Log, e: Event, r: Outcome)
    requires !IsLogin(e) && UntilLogin(h + [e], r)
    ensures UntilLogin(h, r)
  {
    assert r.history[|h|] == e;
  }

  lemma UntilLoginThen(h: Log, first: Outcome, r: Outcome)
    requires UntilLogin(h, first) && first.status.Continue? && UntilLogin(first.history, r)
    ensures UntilLogin(h, r)
  {
    forall i | |h| <= i < |r.history| - 1
      ensures !IsLogin(r.history[i])
    {
      if i < |first.history| { assert r.history[i] == first.history[i]; }
    }
    if |first.history| > |h| { assert r.history[|first.history| - 1] == first.history[|first.history| - 1]; }
  }

  lemma {:induction false} IdentitiesUntilLogin(w: World, k: nat, count: nat, h: Log)
    ensures UntilLogin(h, RunIdentities(w, k, count, h))
    decreases count - k
  {
    if k < count && !w.env.agentAccepts(h, k) {
      IdentitiesUntilLogin(w, k + 1, count, h + [AgentCall(k, Rejected)]);
      UntilLoginOneMore(h, AgentCall(k, Rejected), RunIdentities(w, k, count, h));
    }
  }

  lemma SingleUntilLogin(w: World, a: Attempt, h: Log)
    requires !a.kind.Agent? && !a.kind.Provider?
    ensures UntilLogin(h, RunSingle(w, a, h))
  {
  }

  lemma {:induction false} CandidatesUntilLogin(w: World, cs: seq<Candidate>, i: nat, h: Log)
    ensures UntilLogin(h, RunCandidates(w, cs, i, h))
    decreases 1, 0, |cs| - i
  {
    if i < |cs| {
      var sub, all := ResolveCandidate(w, cs[i], w.env.material(h, i)), RunCandidates(w, cs, i, h);
      if sub.Some? {
        var h' := h + [CandidateResolved(i, true)];
        var r := RunPlan(w, sub.value, h');
        PlanUntilLogin(w, sub.value, h');
        if r.status.Continue? {
          CandidatesUntilLogin(w, cs, i + 1, r.history);
          UntilLoginThen(h', r, all);
        }
        UntilLoginOneMore(h, CandidateResolved(i, true), all);
      }
    }
  }

  lemma {:induction false} AttemptUntilLogin(w: World, a: Attempt, h: Log)
    ensures UntilLogin(h, RunAttempt(w, a, h))
    decreases if a.kind.Provider? then 1 else 0, 2, 0
  {
    match a.kind {
      case Agent =>
        if w.env.agentIdentities(h).Some? {
          IdentitiesUntilLogin(w, 0, w.env.agentIdentities(h).value, h + [AgentOpened(true)]);
          UntilLoginOneMore(h, AgentOpened(true), RunAttempt(w, a, h));
        }
      case Provider =>
        if w.publickey && w.env.candidates(h).Some? {
          CandidatesUntilLogin(w, w.env.candidates(h).value, 0, h + [CandidatesFetched(true)]);
          UntilLoginOneMore(h, CandidatesFetched(true), RunAttempt(w, a, h));
        }
      case _ => SingleUntilLogin(w, a, h);
    }
  }

  /** A plan's run stops at its first accepted call, and reports the method of this call. */
  lemma {:induction false} PlanUntilLogin(w: World, plan: seq<Attempt>, h: Log)
    ensures UntilLogin(h, RunPlan(w, plan, h))
    decreases Markers(plan), 3, |plan|
  {
    if plan != [] {
      var r := RunAttempt(w, plan[0], h);
      AttemptUntilLogin(w, plan[0], h);
      if r.status.Continue? {
        PlanUntilLogin(w, plan[1..], r.history);
        UntilLoginThen(h, r, RunPlan(w, plan, h));
      }
    }
  }
}
