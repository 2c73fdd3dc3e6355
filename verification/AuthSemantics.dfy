/** The meaning of an authentication plan, written as the nested loops of the blocking driver, and the meaning of the
    suspended state of the poll operation.  Both drivers are proved against RunPlan.
 */
module AuthSemantics {
  import opened Ssh2Types

  datatype Status = Continue | LoggedIn(reported: string) | Failed

  /** The completed events so far and whether the next attempt is to be made. */
  datatype Outcome = Outcome(history: Log, status: Status)

  /** What an authentication run depends on beside the plan. */
  datatype World = World(env: Env, publickey: bool, memoryKeys: bool, password: string)

  // ---- provider candidates -------------------------------------------------------------------------------------

  function MemoryKeyAttempt(w: World, pub: Option<string>, priv: string): seq<Attempt> {
    if !w.memoryKeys || priv == "" then []
    else [Attempt(PubkeyMemory, if pub.Some? then pub.value else "", priv, "")]
  }

  function CandidateFileAttempt(w: World, path: string): seq<Attempt> {
    [Attempt(PubkeyFile, "", path, w.password)]
  }

  function ResolveMaterial(w: World, material: Material, optional: bool): Option<seq<Attempt>> {
    match material
    case MaterialException => if optional then Some([]) else None
    case MaterialNotAHash => None
    case Material(None, _, _, _, _) => None
    case Material(Some(kind), path, privateText, privateData, publicText) =>
      if kind == "file" then
        if path.Some? then Some(CandidateFileAttempt(w, path.value)) else None
      else if kind == "text" then
        if privateText.Some? then Some(MemoryKeyAttempt(w, publicText, privateText.value)) else None
      else if kind == "data" then
        if privateData.Some? then Some(MemoryKeyAttempt(w, publicText, privateData.value)) else None
      else if optional then Some([])
      else None
  }

  /** The attempts one candidate stands for; None when an exception is raised. */
  function ResolveCandidate(w: World, c: Candidate, material: Material): (plan: Option<seq<Attempt>>)
    ensures plan.Some? ==> Markers(plan.value) == 0 && |plan.value| <= 1
  {
    match c
    case CandidateNotAHash => None
    case Candidate(None, _, _) => None
    case Candidate(Some(kind), path, optional) =>
      if kind == "agent" then
        Some(if w.publickey then [Attempt(Agent, "", "", "")] else [])
      else if kind == "file" then
        if path.Some? then Some(CandidateFileAttempt(w, path.value)) else None
      else if kind != "in-memory" && kind != "reference" then None
      else ResolveMaterial(w, material, optional)
  }

  // ---- what a provider means by a candidate --------------------------------------------------------------------

  /** Candidates whose key comes with the material the provider is asked for. */
  predicate AsksForMaterial(c: Candidate) {
    c.Candidate? && (c.kind == Some("in-memory") || c.kind == Some("reference"))
  }

  /** The candidate or its material names a private key file. */
  predicate NamesFile(c: Candidate, m: Material, path: string) {
    || (c.Candidate? && c.kind == Some("file") && c.path == Some(path))
    || (AsksForMaterial(c) && m.Material? && m.kind == Some("file") && m.path == Some(path))
  }

  /** The material holds a private key, as text or as data. */
  predicate HoldsKey(c: Candidate, m: Material, key: string) {
    && AsksForMaterial(c) && m.Material?
    && ((m.kind == Some("text") && m.privateText == Some(key))
        || (m.kind == Some("data") && m.privateData == Some(key)))
  }

  /** The attempts a candidate may stand for: the private key file it names, without a public key file and with the
      client's password; the private key it holds, with the public key that comes with it and no password; the agent.
   */
  predicate StandsFor(w: World, c: Candidate, m: Material, a: Attempt) {
    match a.kind
    case PubkeyFile => NamesFile(c, m, a.privKey) && a.pubKey == "" && a.passphrase == w.password
    case PubkeyMemory =>
      && HoldsKey(c, m, a.privKey) && a.privKey != "" && w.memoryKeys && a.passphrase == ""
      && a.pubKey == (if m.publicText.Some? then m.publicText.value else "")
    case Agent =>
      && c.Candidate? && c.kind == Some("agent") && w.publickey
      && a.pubKey == "" && a.privKey == "" && a.passphrase == ""
    case _ => false
  }

  /** A material that lacks what its kind calls for, or is of no known kind. */
  predicate Incomplete(m: Material, optional: bool) {
    match m
    case MaterialException => !optional
    case MaterialNotAHash => true
    case Material(kind, path, privateText, privateData, _) =>
      || kind.None?
      || (kind == Some("file") && path.None?)
      || (kind == Some("text") && privateText.None?)
      || (kind == Some("data") && privateData.None?)
      || (!optional && kind != Some("file") && kind != Some("text") && kind != Some("data"))
  }

  /** Candidates that raise an exception: without a kind, of no known kind, or without what the kind calls for. */
  predicate Raises(c: Candidate, m: Material) {
    || c.CandidateNotAHash? || c.kind.None?
    || (c.kind == Some("file") && c.path.None?)
    || (AsksForMaterial(c) && Incomplete(m, c.optional))
    || (!AsksForMaterial(c) && c.kind != Some("agent") && c.kind != Some("file"))
  }

  /** The plan is what the provider means: an exception is raised exactly for what Raises describes, and otherwise the
      plan has exactly the attempts the candidate stands for, once each.
   */
  ghost predicate IsMeant(w: World, c: Candidate, m: Material, plan: Option<seq<Attempt>>) {
    && (plan.None? <==> Raises(c, m))
    && (plan.Some? ==> |plan.value| <= 1 && forall a :: a in plan.value <==> StandsFor(w, c, m, a))
  }

  lemma SameShortPlan(p: seq<Attempt>, q: seq<Attempt>)
    requires |p| <= 1 && |q| <= 1 && forall a :: a in p <==> a in q
    ensures p == q
  {
    if p != [] { assert p[0] in q; }
    if q != [] { assert q[0] in p; }
  }

  /** ResolveCandidate() is what the provider means, and nothing else is. */
  lemma ResolvedAsMeant(w: World, c: Candidate, m: Material, plan: Option<seq<Attempt>>)
    ensures IsMeant(w, c, m, plan) <==> plan == ResolveCandidate(w, c, m)
  {
    var resolved := ResolveCandidate(w, c, m);
    assert resolved.Some? && resolved.value != [] ==> forall a :: a in resolved.value <==> a == resolved.value[0];
    assert IsMeant(w, c, m, resolved);
    if IsMeant(w, c, m, plan) && plan.Some? { SameShortPlan(plan.value, resolved.value); }
  }

  /** The number of PROVIDER markers in a plan. */
  function Markers(plan: seq<Attempt>): nat {
    if plan == [] then 0 else (if plan[0].kind.Provider? then 1 else 0) + Markers(plan[1..])
  }

  lemma {:induction false} MarkersConcat(p: seq<Attempt>, q: seq<Attempt>)
    ensures Markers(p + q) == Markers(p) + Markers(q)
  {
    if p == [] {
      assert p + q == q;
    } else {
      assert (p + q)[1..] == p[1..] + q;
      MarkersConcat(p[1..], q);
    }
  }

  // ---- the nested loops ----------------------------------------------------------------------------------------

  /** The identities of an agent from number k on. */
  function RunIdentities(w: World, k: nat, count: nat, h: Log): Outcome
    decreases count - k
  {
    if k >= count then Outcome(h, Continue)
    else
      var ok := w.env.agentAccepts(h, k);
      var h' := h + [AgentCall(k, Verdict(ok))];
      if ok then Outcome(h', LoggedIn(AuthenticatedWith(Agent))) else RunIdentities(w, k + 1, count, h')
  }

  function RunAgent(w: World, h: Log): Outcome {
    match w.env.agentIdentities(h)
    case None => Outcome(h + [AgentOpened(false)], Continue)
    case Some(count) => RunIdentities(w, 0, count, h + [AgentOpened(true)])
  }

  /** One libssh2 authentication call. */
  function RunCall(w: World, a: Attempt, h: Log): Outcome {
    var ok := w.env.accepts(h, a);
    Outcome(h + [AuthCall(a, Verdict(ok))], if ok then LoggedIn(AuthenticatedWith(a.kind)) else Continue)
  }

  /** A single-call attempt with the sandbox check of its key files. */
  function RunSingle(w: World, a: Attempt, h: Log): Outcome {
    if !a.kind.PubkeyFile? then RunCall(w, a, h)
    else
      var ok := w.env.access(h, a);
      var h' := h + [AccessChecked(a, ok)];
      if ok then RunCall(w, a, h') else Outcome(h', Failed)
  }

  /** The candidates from number i on: each is resolved and its attempts are made before the next is resolved. */
  function RunCandidates(w: World, cs: seq<Candidate>, i: nat, h: Log): Outcome
    decreases 1, 0, |cs| - i
  {
    if i >= |cs| then Outcome(h, Continue)
    else
      match ResolveCandidate(w, cs[i], w.env.material(h, i))
      case None => Outcome(h + [CandidateResolved(i, false)], Failed)
      case Some(sub) =>
        var r := RunPlan(w, sub, h + [CandidateResolved(i, true)]);
        if r.status.Continue? then RunCandidates(w, cs, i + 1, r.history) else r
  }

  function RunProvider(w: World, h: Log): Outcome
    decreases 1, 1, 0
  {
    if !w.publickey then Outcome(h, Continue)
    else
      match w.env.candidates(h)
      case None => Outcome(h + [CandidatesFetched(false)], Failed)
      case Some(cs) => RunCandidates(w, cs, 0, h + [CandidatesFetched(true)])
  }

  function RunAttempt(w: World, a: Attempt, h: Log): Outcome
    decreases if a.kind.Provider? then 1 else 0, 2, 0
  {
    match a.kind
    case Agent => RunAgent(w, h)
    case Provider => RunProvider(w, h)
    case _ => RunSingle(w, a, h)
  }

  function RunPlan(w: World, plan: seq<Attempt>, h: Log): Outcome
    decreases Markers(plan), 3, |plan|
  {
    if plan == [] then Outcome(h, Continue)
    else
      var r := RunAttempt(w, plan[0], h);
      if r.status.Continue? then RunPlan(w, plan[1..], r.history) else r
  }

  // ---- the suspended poll operation ----------------------------------------------------------------------------

  datatype AgentCursor = AgentCursor(next: nat, count: nat)
  datatype CandidateCursor = CandidateCursor(list: seq<Candidate>, next: nat)

  /** The authentication part of a poll operation between two steps. */
  datatype Suspended = Suspended(
    queue: seq<Attempt>, checked: bool, agent: Option<AgentCursor>, candidates: Option<CandidateCursor>)

  function Fresh(queue: seq<Attempt>, candidates: Option<CandidateCursor>): Suspended {
    Suspended(queue, false, None, candidates)
  }

  /** What remains of the attempt at the front of the queue. */
  function RunFront(w: World, s: Suspended, h: Log): Outcome
    requires s.queue != []
  {
    var a := s.queue[0];
    if a.kind.Agent? && s.agent.Some? then RunIdentities(w, s.agent.value.next, s.agent.value.count, h)
    else if a.kind.Provider? && s.candidates.Some? then
      RunCandidates(w, s.candidates.value.list, s.candidates.value.next, h)
    else if !a.kind.Agent? && !a.kind.Provider? && s.checked then RunCall(w, a, h)
    else RunAttempt(w, a, h)
  }

  /** What a suspended operation will have done once its queue is used up or an attempt ends it. */
  function Resume(w: World, s: Suspended, h: Log): Outcome
    decreases |s.queue|
  {
    if s.queue == [] then Outcome(h, Continue)
    else
      var r := RunFront(w, s, h);
      if r.status.Continue?
      then Resume(w, Fresh(s.queue[1..], if s.queue[0].kind.Provider? then None else s.candidates), r.history)
      else r
  }

  /** A queue that was just filled means its plan. */
  lemma {:induction false} ResumeFresh(w: World, plan: seq<Attempt>, h: Log)
    ensures Resume(w, Fresh(plan, None), h) == RunPlan(w, plan, h)
    decreases |plan|
  {
    if plan != [] {
      var r := RunAttempt(w, plan[0], h);
      ResumeFresh(w, plan[1..], r.history);
    }
  }

  /** The attempts resolved from a candidate may be put in front of the queue, markers staying behind them. */
  lemma {:induction false} ResumePrefix(w: World, sub: seq<Attempt>, rest: seq<Attempt>, c: Option<CandidateCursor>,
                                        h: Log)
    requires Markers(sub) == 0
    ensures var r := RunPlan(w, sub, h);
            Resume(w, Fresh(sub + rest, c), h)
            == if r.status.Continue? then Resume(w, Fresh(rest, c), r.history) else r
    decreases |sub|
  {
    if sub == [] {
      assert sub + rest == rest;
    } else {
      assert (sub + rest)[1..] == sub[1..] + rest;
      var r := RunAttempt(w, sub[0], h);
      ResumePrefix(w, sub[1..], rest, c, r.history);
    }
  }

  /** A marker at the front of the queue: without public key authentication it stands for nothing, otherwise for the
      candidates the provider names now.
   */
  lemma ResumeMarker(w: World, queue: seq<Attempt>, h: Log)
    requires queue != [] && queue[0].kind.Provider?
    ensures Resume(w, Fresh(queue, None), h)
            == if !w.publickey then Resume(w, Fresh(queue[1..], None), h)
               else
                 match w.env.candidates(h)
                 case None => Outcome(h + [CandidatesFetched(false)], Failed)
                 case Some(cs) => Resume(w, Fresh(queue, Some(CandidateCursor(cs, 0))), h + [CandidatesFetched(true)])
  {
    var r := RunProvider(w, h);
    assert RunFront(w, Fresh(queue, None), h) == r;
    if w.publickey && w.env.candidates(h).Some? {
      var s := Fresh(queue, Some(CandidateCursor(w.env.candidates(h).value, 0)));
      assert RunFront(w, s, h + [CandidatesFetched(true)]) == r;
    }
  }

  /** Resolving one candidate lazily leaves the meaning of the queue unchanged. */
  lemma ResumeResolve(w: World, queue: seq<Attempt>, cs: seq<Candidate>, i: nat, h: Log)
    requires queue != [] && queue[0].kind.Provider? && i < |cs|
    ensures var before := Resume(w, Fresh(queue, Some(CandidateCursor(cs, i))), h);
            match ResolveCandidate(w, cs[i], w.env.material(h, i))
            case None => before == Outcome(h + [CandidateResolved(i, false)], Failed)
            case Some(sub) =>
              before == Resume(w, Fresh(sub + queue, Some(CandidateCursor(cs, i + 1))),
                               h + [CandidateResolved(i, true)])
  {
    match ResolveCandidate(w, cs[i], w.env.material(h, i)) {
      case None =>
      case Some(sub) =>
        ResumePrefix(w, sub, queue, Some(CandidateCursor(cs, i + 1)), h + [CandidateResolved(i, true)]);
    }
  }

  // ---- histories only grow -------------------------------------------------------------------------------------

  lemma {:induction false} IdentitiesExtend(w: World, k: nat, count: nat, h: Log)
    ensures h <= RunIdentities(w, k, count, h).history
    decreases count - k
  {
    if k < count {
      IdentitiesExtend(w, k + 1, count, h + [AgentCall(k, Verdict(w.env.agentAccepts(h, k)))]);
    }
  }

  lemma {:induction false} CandidatesExtend(w: World, cs: seq<Candidate>, i: nat, h: Log)
    ensures h <= RunCandidates(w, cs, i, h).history
    decreases 1, 0, |cs| - i
  {
    if i < |cs| {
      var c := ResolveCandidate(w, cs[i], w.env.material(h, i));
      if c.Some? {
        var h' := h + [CandidateResolved(i, true)];
        PlanExtends(w, c.value, h');
        CandidatesExtend(w, cs, i + 1, RunPlan(w, c.value, h').history);
      }
    }
  }

  lemma {:induction false} AttemptExtends(w: World, a: Attempt, h: Log)
    ensures h <= RunAttempt(w, a, h).history
    decreases if a.kind.Provider? then 1 else 0, 2, 0
  {
    if a.kind.Agent? {
      if w.env.agentIdentities(h).Some? {
        IdentitiesExtend(w, 0, w.env.agentIdentities(h).value, h + [AgentOpened(true)]);
      }
    } else if a.kind.Provider? && w.publickey && w.env.candidates(h).Some? {
      CandidatesExtend(w, w.env.candidates(h).value, 0, h + [CandidatesFetched(true)]);
    }
  }

  lemma {:induction false} PlanExtends(w: World, plan: seq<Attempt>, h: Log)
    ensures h <= RunPlan(w, plan, h).history
    decreases Markers(plan), 3, |plan|
  {
    if plan != [] {
      AttemptExtends(w, plan[0], h);
      PlanExtends(w, plan[1..], RunAttempt(w, plan[0], h).history);
    }
  }

  lemma {:induction false} ResumeExtends(w: World, s: Suspended, h: Log)
    ensures h <= Resume(w, s, h).history
    decreases |s.queue|
  {
    if s.queue != [] {
      var a := s.queue[0];
      if a.kind.Agent? && s.agent.Some? {
        IdentitiesExtend(w, s.agent.value.next, s.agent.value.count, h);
      } else if a.kind.Provider? && s.candidates.Some? {
        CandidatesExtend(w, s.candidates.value.list, s.candidates.value.next, h);
      } else {
        AttemptExtends(w, a, h);
      }
      var next := Fresh(s.queue[1..], if a.kind.Provider? then None else s.candidates);
      ResumeExtends(w, next, RunFront(w, s, h).history);
    }
  }
}
