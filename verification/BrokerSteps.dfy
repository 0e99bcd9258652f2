/** Steps inside a broker call, the clock and the allocator preserve the whole invariant. */
module BrokerSteps {
  import opened Base
  import opened Machine
  import opened Invariant
  import opened Preservation
  import opened Growth
  import opened Clients

  // ----- steps inside a broker call ------------------------------------------------

  /** The interface of a broker step to the clients: thread `t` stays in its call, no
      handler's claim changes, and clients are at most notified. */
  ghost predicate InBroker(s: State, s': State, t: Tid)
    requires t < |s.calls|
  {
    |s'.calls| == |s.calls| && |s'.clients| == |s.clients| && Grows(s, s') &&
    !s.calls[t].Idle? && !s'.calls[t].Idle? && s'.calls[t].op == s.calls[t].op &&
    (forall u :: 0 <= u < |s.calls| && u != t ==> s'.calls[u] == s.calls[u]) &&
    (s'.clients == s.clients || exists id: Id :: s'.clients == NotifyAll(s.clients, id)) &&
    (forall x, i, o :: s'.claims[Claim(Handler(x, i), o)] == s.claims[Claim(Handler(x, i), o)]) &&
    s.heap.Keys <= s'.heap.Keys
  }

  lemma InBrokerKeeps(w: World, s: State, s': State, t: Tid)
    requires Inv(w, s) && t < |s.calls| && InBroker(s, s', t) && BrokerInv(w, s')
    requires forall u :: 0 <= u < |s.calls| ==> Alerts(s, s', u)
    requires ReplyOk(s', t)
    ensures Inv(w, s')
  {
    forall u | 0 <= u < |s.calls| ensures ClientOk(w, s', u) && ReplyOk(s', u) {
      assert ClientOk(w, s, u) && ReplyOk(s, u);
      assert Env(s, s', u) by { NotifiedEach(s, s', u); }
      ClientStable(w, s, s', u);
      if u != t { ReplyStable(s, s', u); }
    }
    SlotsKept(s, s', t);
  }

  lemma NotifiedEach(s: State, s': State, u: Tid)
    requires u < |s.clients| == |s'.clients|
    requires s'.clients == s.clients || exists id: Id :: s'.clients == NotifyAll(s.clients, id)
    ensures s'.clients[u] == s.clients[u] || exists id: nat :: s'.clients[u] == Notified(s.clients[u], id)
  {
    if s'.clients != s.clients {
      var id: Id :| s'.clients == NotifyAll(s.clients, id);
      assert s'.clients[u] == Notified(s.clients[u], id);
    }
  }

  lemma SlotsKept(s: State, s': State, t: Tid)
    requires Balanced(s) && t < |s.calls| && InBroker(s, s', t)
    ensures Balanced(s')
  {
    forall x: Tid, i: nat, o: Obj ensures s'.claims[Claim(Handler(x, i), o)] == Slot(s', x, i, o) {
      assert s.claims[Claim(Handler(x, i), o)] == Slot(s, x, i, o);
      if x < |s.clients| && s'.clients != s.clients {
        var id: Id :| s'.clients == NotifyAll(s.clients, id);
        SlotStable(s.clients[x], id, i, o);
      }
    }
  }

  /** A step that leaves versions, and the pcs of threads holding item locks, alone. */
  lemma QuietAlerts(w: World, s: State, s': State, t: Tid, u: Tid)
    requires BrokerInv(w, s) && t < |s.calls| == |s'.calls|
    requires u < |s.clients| == |s'.clients| && |s.items| <= |s'.items|
    requires forall x :: 0 <= x < |s.calls| && x != t ==> s'.calls[x] == s.calls[x]
    requires !(s.calls[t].Working? && s.calls[t].pc.Notify?)
    requires forall id :: 0 <= id < |s.items| ==> s'.items[id].version == s.items[id].version
    requires forall id :: 0 <= id < |s.items| ==>
      s'.items[id].lock == s.items[id].lock || s.items[id].lock.None? || s.items[id].lock == Some(t)
    ensures Alerts(s, s', u)
  {
    forall id | 0 <= id < |s.items|
      ensures Notifying(s, id) ==> Notifying(s', id)
    {
      assert LockOk(s, id);
    }
  }

  lemma BumpAlerts(w: World, s: State, t: Tid, ch: Choice, u: Tid)
    requires BrokerInv(w, s) && SetEnabled(w, s, t, ch) && s.calls[t].pc.Bump? && u < |s.clients|
    ensures Alerts(s, SetStep(w, s, t, ch), u)
  {
    assert ThreadOk(w, s, t);
    forall id | 0 <= id < |s.items|
      ensures id == s.calls[t].id || HolderCall(SetStep(w, s, t, ch), id) == HolderCall(s, id)
    {
      assert LockOk(s, id);
    }
  }

  lemma NotifyAlerts(w: World, s: State, t: Tid, ch: Choice, u: Tid)
    requires BrokerInv(w, s) && SetEnabled(w, s, t, ch) && s.calls[t].pc.Notify? && u < |s.clients|
    ensures Alerts(s, SetStep(w, s, t, ch), u)
  {
    assert ThreadOk(w, s, t);
    forall id | 0 <= id < |s.items|
      ensures id == s.calls[t].id || HolderCall(SetStep(w, s, t, ch), id) == HolderCall(s, id)
    {
      assert LockOk(s, id);
    }
  }

  lemma OtherAlerts(w: World, s: State, t: Tid, ch: Choice, u: Tid)
    requires BrokerInv(w, s) && SetEnabled(w, s, t, ch) && !s.calls[t].pc.Bump? && !s.calls[t].pc.Notify?
    requires u < |s.clients|
    ensures Alerts(s, SetStep(w, s, t, ch), u)
  {
    assert ThreadOk(w, s, t);
    QuietAlerts(w, s, SetStep(w, s, t, ch), t, u);
  }

  lemma SetAlerts(w: World, s: State, t: Tid, ch: Choice, u: Tid)
    requires BrokerInv(w, s) && SetEnabled(w, s, t, ch) && u < |s.clients|
    ensures |SetStep(w, s, t, ch).clients| == |s.clients|
    ensures |SetStep(w, s, t, ch).items| == |s.items|
    ensures Alerts(s, SetStep(w, s, t, ch), u)
  {
    match s.calls[t].pc
    case Bump(_, _) => BumpAlerts(w, s, t, ch, u);
    case Notify(_) => NotifyAlerts(w, s, t, ch, u);
    case _ => OtherAlerts(w, s, t, ch, u);
  }

  lemma SetInBroker(w: World, s: State, t: Tid, ch: Choice)
    requires BrokerInv(w, s) && SetEnabled(w, s, t, ch)
    ensures InBroker(s, SetStep(w, s, t, ch), t)
  {
    SetGrows(w, s, t, ch);
    match s.calls[t].pc
    case Notify(_) => NotifyInBroker(w, s, t, ch);
    case Allocate => ClaimsInBroker(w, s, t, ch);
    case Discard(_) => ClaimsInBroker(w, s, t, ch);
    case FreeOld(_) => ClaimsInBroker(w, s, t, ch);
    case _ => PlainInBroker(w, s, t, ch);
  }

  lemma NotifyInBroker(w: World, s: State, t: Tid, ch: Choice)
    requires SetEnabled(w, s, t, ch) && s.calls[t].pc.Notify? && Grows(s, SetStep(w, s, t, ch))
    ensures InBroker(s, SetStep(w, s, t, ch), t)
  {}

  lemma ClaimsInBroker(w: World, s: State, t: Tid, ch: Choice)
    requires SetEnabled(w, s, t, ch) && Grows(s, SetStep(w, s, t, ch))
    requires s.calls[t].pc.Allocate? || s.calls[t].pc.Discard? || s.calls[t].pc.FreeOld?
    ensures InBroker(s, SetStep(w, s, t, ch), t)
  {}

  lemma PlainInBroker(w: World, s: State, t: Tid, ch: Choice)
    requires SetEnabled(w, s, t, ch) && Grows(s, SetStep(w, s, t, ch))
    requires !s.calls[t].pc.Notify? && !s.calls[t].pc.Allocate? && !s.calls[t].pc.Discard? && !s.calls[t].pc.FreeOld?
    ensures InBroker(s, SetStep(w, s, t, ch), t)
  {}

  lemma SetInv(w: World, s: State, t: Tid, ch: Choice)
    requires Inv(w, s) && SetEnabled(w, s, t, ch)
    ensures Inv(w, SetStep(w, s, t, ch))
  {
    var s' := SetStep(w, s, t, ch);
    SetKeeps(w, s, t, ch);
    SetInBroker(w, s, t, ch);
    forall u | 0 <= u < |s.calls| ensures Alerts(s, s', u) { SetAlerts(w, s, t, ch, u); }
    InBrokerKeeps(w, s, s', t);
  }

  lemma GetInv(w: World, s: State, t: Tid)
    requires Inv(w, s) && GetEnabled(s, t)
    ensures Inv(w, GetStep(s, t))
  {
    var s', id := GetStep(s, t), s.calls[t].id;
    assert ThreadOk(w, s, t) && ItemOk(w, s, id) && LockOk(s, id);
    GetKeeps(w, s, t);
    GetGrows(w, s, t);
    forall u | 0 <= u < |s.calls| ensures Alerts(s, s', u) { QuietAlerts(w, s, s', t, u); }
    GetReply(w, s, t);
    InBrokerKeeps(w, s, s', t);
  }

  /** What get_config returns when it gives the lock back. */
  lemma GetReply(w: World, s: State, t: Tid)
    requires BrokerInv(w, s) && GetEnabled(s, t)
    ensures ReplyOk(GetStep(s, t), t)
  {
    var s', id := GetStep(s, t), s.calls[t].id;
    assert ThreadOk(w, s, t) && ItemOk(w, s, id) && HeapOk(s);
    if s.calls[t].pc.Leave? {
      assert HolderCall(s, id) == s.calls[t];
      assert Current(s', id) == s.items[id].data == Current(s, id);
    }
  }

  lemma LockInv(w: World, s: State, t: Tid)
    requires Inv(w, s) && LockEnabled(s, t)
    ensures Inv(w, LockStep(s, t))
  {
    var s' := LockStep(s, t);
    assert ThreadOk(w, s, t);
    LockKeeps(w, s, t);
    LockGrows(w, s, t);
    forall u | 0 <= u < |s.calls| ensures Alerts(s, s', u) { QuietAlerts(w, s, s', t, u); }
    InBrokerKeeps(w, s, s', t);
  }

  /** Unsealing, the list search and registration. */
  lemma OutsideInv(w: World, s: State, s': State, t: Tid)
    requires Inv(w, s) && t < |s.calls| && Outside(w, s, s', t) && BrokerInv(w, s')
    requires !s.calls[t].Idle? && !s'.calls[t].Idle? && s'.calls[t].op == s.calls[t].op
    requires s'.clients == s.clients && s'.claims == s.claims && s'.now == s.now
    requires s'.calls[t].Returned? ==> !s'.calls[t].reply.Found?
    ensures Inv(w, s')
  {
    OutsideGrows(w, s, s', t);
    forall id | 0 <= id < |s.items|
      ensures s'.items[id].version == s.items[id].version && s'.items[id].lock == s.items[id].lock
    {
      assert Same(s.items[id], s'.items[id]);
    }
    forall u | 0 <= u < |s.calls| ensures Alerts(s, s', u) { QuietAlerts(w, s, s', t, u); }
    InBrokerKeeps(w, s, s', t);
  }

  lemma FindInv(w: World, s: State, t: Tid, ch: Choice)
    requires Inv(w, s) && FindEnabled(s, t)
    ensures Inv(w, FindStep(s, t, ch))
  {
    FindKeeps(w, s, t, ch);
    assert ThreadOk(w, s, t);
    OutsideInv(w, s, FindStep(s, t, ch), t);
  }

  lemma UnsealInv(w: World, s: State, t: Tid)
    requires Inv(w, s) && UnsealEnabled(s, t)
    ensures Inv(w, UnsealStep(s, t))
  {
    UnsealKeeps(w, s, t);
    OutsideInv(w, s, UnsealStep(s, t), t);
  }

  lemma RegisterInv(w: World, s: State, t: Tid)
    requires Inv(w, s) && RegisterEnabled(w, s, t)
    ensures Inv(w, RegisterStep(w, s, t))
  {
    RegisterKeeps(w, s, t);
    RegisterOutside(w, s, t);
    OutsideInv(w, s, RegisterStep(w, s, t), t);
  }

  // ----- the clock and the allocator -----------------------------------------------

  lemma TickInv(w: World, s: State, to: nat)
    requires Inv(w, s) && s.now <= to
    ensures Inv(w, s.(now := to))
  {
    var s' := s.(now := to);
    Unrelated(w, s, s.clients, to);
    BystandersInv(w, s, s');
  }

  lemma ReclaimInv(w: World, s: State, o: Obj)
    requires Inv(w, s) && o in s.heap && !Claimed(s, o) && !Hazard(s, o)
    ensures Inv(w, s.(heap := s.heap - {o}))
  {
    ReclaimKeeps(w, s, o);
    BystandersInv(w, s, s.(heap := s.heap - {o}));
  }

  /** No thread moves; unhazarded objects may go and time may pass. */
  lemma BystandersInv(w: World, s: State, s': State)
    requires Inv(w, s) && BrokerInv(w, s')
    requires s'.calls == s.calls && s'.clients == s.clients && s'.items == s.items && s'.claims == s.claims
    requires s.now <= s'.now && s'.nextObj == s.nextObj
    requires forall o :: o in s'.heap ==> o in s.heap && s'.heap[o] == s.heap[o]
    requires forall o :: o in s.heap && Hazard(s, o) ==> o in s'.heap
    ensures Inv(w, s')
  {
    forall i | 0 <= i < |s.items| ensures Follows(s, s', i) { assert HolderCall(s', i) == HolderCall(s, i); }
    forall u | 0 <= u < |s.calls| ensures ClientOk(w, s', u) && ReplyOk(s', u) {
      assert ClientOk(w, s, u) && ReplyOk(s, u);
      ClientStable(w, s, s', u);
      ReplyStable(s, s', u);
    }
  }
}
