/** A client, its channels, listeners and poll operations (src/SSH2Client.cpp, src/SSH2Channel.cpp,
    src/SSH2Listener.cpp, src/SftpPollOperation.cpp): who references the client, which children are registered with it,
    and when the libssh2 handles of the children are freed.

    Everything under the client's lock is one step, except for a disconnect: while it works through the registries, a
    child's destructor may look at its handle without the lock, find it closed, and destroy the child.
 */
module Lifecycle {
  import opened Ssh2Types

  datatype Kind = Channel | Listener

  /** A child that was not yet destroyed: whether its libssh2 handle is open, and whether its destructor has seen an
      open handle and now waits for the lock.
   */
  datatype Child = Child(kind: Kind, open: bool, waiting: bool)

  /** The disconnect that has the lock, with the children it has yet to visit. */
  datatype Stage = Unlocked | Cancelling(todo: set<nat>) | Closing(todo: set<nat>)

  /** faults counts what must never happen: a visit of a destroyed child, a second free of a handle, a free without the
      session, a deregistration of a child that is not registered, a deletion of a client that is in use.
   */
  datatype State = State(
    alive: bool, refs: nat, named: bool, ops: nat, session: bool, children: map<nat, Child>, registry: set<nat>,
    stage: Stage, created: nat, freed: multiset<nat>, faults: nat)

  const START := State(true, 1, true, 0, false, map[], {}, Unlocked, 0, multiset{}, 0)

  datatype Step =
    | Connect
    | OpenChild(kind: Kind)
    | StartOperation
    | EndOperation
    | DropObject
    | BeginDisconnect
    | CancelListener(child: nat)
    | ListenersDone
    | CloseChannel(child: nat)
    | ChannelsDone
    | CloseChild(child: nat)            // SSH2Listener::cancel()
    | Look(child: nat)                  // a destructor's look at the handle, without the lock
    | DestroyLocked(child: nat)         // the part of a destructor that takes the lock

  function Fault(s: State, bad: bool): State {
    if bad then s.(faults := s.faults + 1) else s
  }

  /** deref(); the last reference deletes the client, which frees its session. */
  function Deref(s: State): State {
    if s.refs != 1 then Fault(s.(refs := if s.refs == 0 then 0 else s.refs - 1), s.refs == 0)
    else
      Fault(s.(refs := 0, alive := false, session := false),
            s.registry != {} || s.stage != Unlocked || s.children.Keys != {})
  }

  /** Frees a child's handle, with the child's and the session's memory in use. */
  function Free(s: State, id: nat): State {
    if id !in s.children then Fault(s, true)
    else
      Fault(s.(children := s.children[id := s.children[id].(open := false)], freed := s.freed + multiset{id}),
            !s.children[id].open || !s.session)
  }

  function Deregister(s: State, id: nat): State {
    Fault(s.(registry := s.registry - {id}), id !in s.registry)
  }

  /** The end of a destructor: the child is gone and releases the client. */
  function Destroy(s: State, id: nat): State {
    Deref(s.(children := s.children - {id}))
  }

  function Registered(s: State, kind: Kind): set<nat> {
    set id | id in s.registry && id in s.children && s.children[id].kind == kind
  }

  /** The next state; None if the step is not possible. */
  function Next(s: State, step: Step): Option<State> {
    match step
    case Connect => if s.stage.Unlocked? && s.alive && !s.session then Some(s.(session := true)) else None
    case OpenChild(kind) =>
      if s.stage.Unlocked? && s.alive && s.session then
        Some(s.(children := s.children[s.created := Child(kind, true, false)], registry := s.registry + {s.created},
                created := s.created + 1, refs := s.refs + 1))
      else None
    case StartOperation => if s.named then Some(s.(ops := s.ops + 1, refs := s.refs + 1)) else None
    case EndOperation => if s.ops > 0 && s.stage.Unlocked? then Some(Deref(s.(ops := s.ops - 1))) else None
    case DropObject => if s.named then Some(Deref(s.(named := false))) else None
    case BeginDisconnect =>
      // the call that disconnects keeps the client referenced until it returns
      if s.stage.Unlocked? && s.alive
      then Some(s.(stage := Cancelling(Registered(s, Listener)), refs := s.refs + 1)) else None
    case CancelListener(id) =>
      if s.stage.Cancelling? && id in s.stage.todo
      then Some(Free(Deregister(s.(stage := Cancelling(s.stage.todo - {id})), id), id)) else None
    case ListenersDone =>
      if s.stage == Cancelling({}) then Some(s.(stage := Closing(Registered(s, Channel)))) else None
    case CloseChannel(id) =>
      if s.stage.Closing? && id in s.stage.todo
      then Some(Free(s.(stage := Closing(s.stage.todo - {id})), id)) else None
    case ChannelsDone =>
      if s.stage == Closing({}) then Some(Deref(s.(registry := {}, session := false, stage := Unlocked))) else None
    case CloseChild(id) =>
      if s.stage.Unlocked? && id in s.children && s.children[id].kind.Listener? && s.children[id].open
      then Some(Free(Deregister(s, id), id)) else None
    case Look(id) =>
      if id !in s.children || s.children[id].waiting then None
      else if s.children[id].open then Some(s.(children := s.children[id := s.children[id].(waiting := true)]))
      else Some(Destroy(s, id))
    case DestroyLocked(id) =>
      if id !in s.children || !s.children[id].waiting || !s.stage.Unlocked? then None
      else if s.children[id].open then Some(Destroy(Free(Deregister(s, id), id), id))
      else Some(Destroy(s, id))
  }

  // ---- what every step keeps -----------------------------------------------------------------------------------

  predicate Open(s: State, id: nat) {
    id in s.children && s.children[id].open
  }

  /** The references there are to the client. */
  function References(s: State): nat {
    (if s.named then 1 else 0) + |s.children| + s.ops + (if s.stage.Unlocked? then 0 else 1)
  }

  /** Between two critical sections the registry holds exactly the children with an open handle. */
  ghost predicate RegistryInv(s: State) {
    match s.stage
    case Unlocked => forall id :: id in s.registry <==> Open(s, id)
    case Cancelling(todo) =>
      && (forall id :: id in s.registry <==> Open(s, id))
      && forall id :: id in todo <==> Open(s, id) && s.children[id].kind.Listener?
    case Closing(todo) =>
      forall id ::
        (id in todo <==> Open(s, id)) && (Open(s, id) ==> id in s.registry && s.children[id].kind.Channel?)
  }

  ghost predicate CountInv(s: State) {
    && s.refs == References(s) && (s.alive <==> s.refs > 0)
    && (!s.session ==> forall id :: !Open(s, id))
  }

  /** Every handle that was ever opened is either still open or was freed once. */
  ghost predicate FreedInv(s: State) {
    && (forall id | id in s.children :: id < s.created)
    && forall id: nat :: s.freed[id] == if id < s.created && !Open(s, id) then 1 else 0
  }

  ghost predicate Inv(s: State) {
    RegistryInv(s) && CountInv(s) && FreedInv(s) && s.faults == 0
  }

  /** Giving up a reference deletes the client only when nothing is left that needs it. */
  lemma DerefKeeps(s: State)
    requires RegistryInv(s) && FreedInv(s) && s.faults == 0 && (!s.session ==> forall id :: !Open(s, id))
    requires s.refs == References(s) + 1 && s.alive
    ensures Inv(Deref(s))
  {
  }

  lemma OpenKept(s: State, kind: Kind, s': State)
    requires Inv(s) && Next(s, OpenChild(kind)) == Some(s')
    ensures Inv(s')
  {
  }

  lemma CancelKept(s: State, id: nat, s': State)
    requires Inv(s) && Next(s, CancelListener(id)) == Some(s')
    ensures Inv(s')
  {
  }

  lemma CloseKept(s: State, id: nat, s': State)
    requires Inv(s) && Next(s, CloseChannel(id)) == Some(s')
    ensures Inv(s')
  {
  }

  /** Frees and deregisters an open child while nobody disconnects. */
  lemma FreeKept(s: State, id: nat)
    requires Inv(s) && s.stage.Unlocked? && Open(s, id)
    ensures var s' := Free(Deregister(s, id), id);
            Inv(s') && !Open(s', id) && id in s'.children && s'.children[id].waiting == s.children[id].waiting
  {
  }

  /** A child without an open handle can be destroyed at any moment, even in the middle of a disconnect. */
  lemma DestroyKept(s: State, id: nat)
    requires Inv(s) && id in s.children && !Open(s, id)
    ensures Inv(Destroy(s, id))
  {
  }

  /** A destructor that has seen an open handle waits for the lock. */
  lemma WaitKept(s: State, id: nat)
    requires Inv(s) && Open(s, id)
    ensures Inv(s.(children := s.children[id := s.children[id].(waiting := true)]))
  {
    var s' := s.(children := s.children[id := s.children[id].(waiting := true)]);
    assert s'.children.Keys == s.children.Keys;
  }

  lemma LookKept(s: State, id: nat, s': State)
    requires Inv(s) && Next(s, Look(id)) == Some(s')
    ensures Inv(s')
  {
    if Open(s, id) { WaitKept(s, id); } else { DestroyKept(s, id); }
  }

  lemma DisconnectKept(s: State, step: Step, s': State)
    requires Inv(s) && Next(s, step) == Some(s')
    requires step.BeginDisconnect? || step.ListenersDone? || step.ChannelsDone?
    ensures Inv(s')
  {
  }

  lemma InvKept(s: State, step: Step, s': State)
    requires Inv(s) && Next(s, step) == Some(s')
    ensures Inv(s')
  {
    match step
    case Connect =>
    case OpenChild(kind) => OpenKept(s, kind, s');
    case StartOperation =>
    case EndOperation => DerefKeeps(s.(ops := s.ops - 1));
    case DropObject => DerefKeeps(s.(named := false));
    case BeginDisconnect => DisconnectKept(s, step, s');
    case CancelListener(id) => CancelKept(s, id, s');
    case ListenersDone => DisconnectKept(s, step, s');
    case CloseChannel(id) => CloseKept(s, id, s');
    case ChannelsDone => DisconnectKept(s, step, s');
    case CloseChild(id) => FreeKept(s, id);
    case Look(id) => LookKept(s, id, s');
    case DestroyLocked(id) =>
      if Open(s, id) {
        FreeKept(s, id);
        DestroyKept(Free(Deregister(s, id), id), id);
      } else {
        DestroyKept(s, id);
      }
  }

  // ---- runs ----------------------------------------------------------------------------------------------------

  /** The state after the steps; None if one of them is not possible. */
  function Run(s: State, steps: seq<Step>): Option<State>
    decreases |steps|
  {
    if steps == [] then Some(s)
    else
      var next := Next(s, steps[0]);
      if next.None? then None else Run(next.value, steps[1..])
  }

  lemma {:induction false} RunKeepsInv(s: State, steps: seq<Step>)
    requires Inv(s) && Run(s, steps).Some?
    ensures Inv(Run(s, steps).value)
    decreases |steps|
  {
    if steps != [] {
      InvKept(s, steps[0], Next(s, steps[0]).value);
      RunKeepsInv(Next(s, steps[0]).value, steps[1..]);
    }
  }

  /** In every reachable state: outside of a disconnect a child is registered exactly when its handle is open; without a
      session nothing is registered or open; the client is referenced by its object, its children and its operations; it
      is deleted only when all of them are gone; every handle is freed once, and nothing destroyed is ever used.
   */
  lemma LifecycleSafe(steps: seq<Step>)
    requires Run(START, steps).Some?
    ensures var s := Run(START, steps).value;
            && (s.stage.Unlocked? ==> forall id :: id in s.registry <==> Open(s, id))
            && (s.stage.Unlocked? && !s.session ==> s.registry == {})
            && s.refs == References(s)
            && (!s.alive <==> !s.named && s.children == map[] && s.ops == 0 && s.stage.Unlocked?)
            && (!s.alive ==> s.registry == {} && forall id | 0 <= id < s.created :: s.freed[id] == 1)
            && (forall id :: s.freed[id] <= 1)
            && s.faults == 0
  {
    RunKeepsInv(START, steps);
    var s := Run(START, steps).value;
    assert s.children == map[] <==> |s.children| == 0;
    forall id
      ensures s.freed[id] <= 1
    {
    }
  }

  /** A destroyed child can still be in the registry while a disconnect is closing channels; it is not visited again. */
  lemma DanglingEntriesExist()
    ensures exists steps :: Run(START, steps).Some?
                            && var s := Run(START, steps).value; s.stage.Closing? && !(s.registry <= s.children.Keys)
  {
    var steps := [Connect, OpenChild(Channel), BeginDisconnect, ListenersDone, CloseChannel(0), Look(0)];
    var s1 := Next(START, steps[0]).value;
    var s2 := Next(s1, steps[1]).value;
    assert Registered(s2, Listener) == {};
    var s3 := Next(s2, steps[2]).value;
    assert Registered(s3, Channel) == {0};
    var s4 := Next(s3, steps[3]).value;
    var s5 := Next(s4, steps[4]).value;
    var s6 := Next(s5, steps[5]).value;
    assert 0 in s6.registry && 0 !in s6.children;
    assert Run(s6, steps[6..]) == Some(s6);
    assert Run(s5, steps[5..]) == Some(s6);
    assert Run(s4, steps[4..]) == Some(s6);
    assert Run(s3, steps[3..]) == Some(s6);
    assert Run(s2, steps[2..]) == Some(s6);
    assert Run(s1, steps[1..]) == Some(s6);
    assert Run(START, steps) == Some(s6);
  }
}
