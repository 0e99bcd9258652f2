/** What the two client loops know between their calls to the broker. */
module Clients {
  import opened Base
  import opened Machine
  import opened Invariant
  import opened Growth

  function One(b: bool): nat { if b then 1 else 0 }

  /** How many claims handler `i` of a client should have on `o`: one for its static
      pointer, plus the claim being taken or given up during a handover.  A heap_claim with
      a negative result leaves the pointer without one. */
  function SlotOf(c: Client, i: nat, o: Obj): nat {
    match c
    case Plain => 0
    case Loop(watch, pc) =>
      if i >= |watch| then 0
      else One(watch[i].held == Some(o) && watch[i].sound) +
           One(pc.Swap? && pc.i == i && pc.obj == o && pc.granted) +
           One(pc.Release? && pc.i == i && pc.prev == Some(o) && pc.had)
    case Provider(_, _, config, _, _, _, pc) =>
      if i > 0 then 0
      else One(!pc.Adopt? && config == Some(o)) +
           One((pc.Compare? || pc.Adopt?) && pc.obj == o)
  }

  function Slot(s: State, t: Tid, i: nat, o: Obj): nat {
    if t < |s.clients| then SlotOf(s.clients[t], i, o) else 0
  }

  ghost predicate Balanced(s: State) {
    forall t, i, o :: s.claims[Claim(Handler(t, i), o)] == Slot(s, t, i, o)
  }

  /** A claimed object: the parser's output for item `n`, for good. */
  ghost predicate Genuine(w: World, s: State, n: Name, o: Obj) {
    o < s.nextObj &&
    (o in s.heap ==>
      s.heap[o].frozen && Parsed(w, n, s.heap[o].bytes) &&
      s.heap[o].item < |s.items| && s.items[s.heap[o].item].name == n)
  }

  ghost predicate WatchOk(w: World, s: State, wt: Watch) {
    (match wt.futex
     case None => wt.seen == 0 && wt.version == 0
     case Some(id) =>
       id < |s.items| && wt.cap.Sealed? && s.items[id].name == wt.cap.name &&
       wt.seen <= |s.items[id].values| && wt.version == wt.seen % U32) &&
    (wt.held.Some? ==> wt.cap.Sealed? && Genuine(w, s, wt.cap.name, wt.held.value))
  }

  /** Nothing read so far, or handed to the handler, or already out of date. */
  predicate Caught(s: State, wt: Watch) {
    wt.futex.Some? && wt.futex.value < |s.items| ==>
      wt.seen == 0 || wt.delivered == wt.seen || wt.seen < |s.items[wt.futex.value].values|
  }

  /** `o` is what the watch was told is current. */
  predicate Offered(s: State, wt: Watch, o: Obj) {
    wt.futex.Some? && wt.seen > 0 && Snapshot(s, wt.futex.value, wt.version, wt.seen, Some(o))
  }

  predicate InCall(c: Call, op: Op) { !c.Idle? && c.op == op }

  /** The futex has not moved, or has been signalled, or its setter is about to signal. */
  predicate Armed(s: State, wt: Watch, wakes: set<Id>) {
    wt.futex.Some? && wt.futex.value < |s.items| &&
    (s.items[wt.futex.value].version == wt.version || wt.futex.value in wakes || Notifying(s, wt.futex.value))
  }

  ghost predicate LoopOk(w: World, s: State, t: Tid)
    requires t < |s.calls| == |s.clients| && s.clients[t].Loop?
  {
    var watch, pc := s.clients[t].watch, s.clients[t].lpc;
    (forall i :: 0 <= i < |watch| ==> WatchOk(w, s, watch[i])) &&
    (forall i :: 0 <= i < |watch| && !(pc.Ephemeral? && pc.i == i) ==> Caught(s, watch[i])) &&
    (!pc.Await? ==> s.calls[t].Idle?) &&
    match pc
    case Scan(i, fired) => |fired| == |watch|
    case Await(i, fired) => i < |watch| == |fired| && InCall(s.calls[t], Get(watch[i].cap))
    case Ephemeral(i, fired, o) => i < |watch| == |fired| && Offered(s, watch[i], o)
    case Handling(i, fired, o) =>
      i < |watch| == |fired| && Offered(s, watch[i], o) && watch[i].delivered == watch[i].seen && o in s.heap
    case Keeping(i, fired, o) => i < |watch| == |fired| && Offered(s, watch[i], o)
    case Swap(i, fired, o, _) => i < |watch| == |fired| && Offered(s, watch[i], o)
    case Release(i, fired, _, _) => i < |watch| == |fired|
    case Blocked(wakes) => forall i :: 0 <= i < |watch| ==> Armed(s, watch[i], wakes)
    case Exited => true
  }

  ghost predicate ProviderOk(w: World, s: State, t: Tid)
    requires t < |s.calls| == |s.clients| && s.clients[t].Provider?
  {
    var c := s.clients[t];
    (c.config.Some? ==> c.cap.Sealed? && Genuine(w, s, c.cap.name, c.config.value)) &&
    c.version == c.seen % U32 &&
    (!c.spc.Fetch? ==> s.calls[t].Idle?) &&
    (c.spc.Fetch? ==> InCall(s.calls[t], Get(c.cap))) &&
    (c.spc.Secure? || c.spc.Compare? || c.spc.Adopt? ==>
      c.cap.Sealed? && Genuine(w, s, c.cap.name, c.spc.obj))
  }

  ghost predicate ClientOk(w: World, s: State, t: Tid)
    requires t < |s.calls| == |s.clients|
  {
    (s.clients[t].Loop? ==> LoopOk(w, s, t)) && (s.clients[t].Provider? ==> ProviderOk(w, s, t))
  }

  /** A get_config result that has not been picked up yet. */
  predicate ReplyOk(s: State, t: Tid)
    requires t < |s.calls|
  {
    var c := s.calls[t];
    c.Returned? && c.reply.Found? ==>
      c.op.Get? && c.op.cap.Sealed? && c.reply.id < |s.items| && s.items[c.reply.id].name == c.op.cap.name &&
      Snapshot(s, c.reply.id, c.reply.version, c.reply.count, c.reply.data)
  }

  ghost predicate Inv(w: World, s: State) {
    |s.calls| == |s.clients| && BrokerInv(w, s) && Balanced(s) &&
    (forall t :: 0 <= t < |s.calls| ==> ReplyOk(s, t)) &&
    (forall t :: 0 <= t < |s.calls| ==> ClientOk(w, s, t))
  }

  // ----- stability ---------------------------------------------------------------

  /** Versions move only under the eyes of a setter that is going to notify, and that
      setter goes past its notify only by waking `u`. */
  predicate Alerts(s: State, s': State, u: Tid)
    requires u < |s.clients| == |s'.clients| && |s.items| <= |s'.items|
  {
    forall id :: 0 <= id < |s.items| ==>
      (s'.items[id].version == s.items[id].version || Notifying(s', id)) &&
      (Notifying(s, id) ==> Notifying(s', id) || s'.clients[u] == Notified(s.clients[u], id))
  }

  /** Everything client `u` can see of a step that is not its own. */
  ghost predicate Env(s: State, s': State, u: Tid)
    requires u < |s.calls| == |s.clients|
  {
    |s'.calls| == |s.calls| && |s'.clients| == |s.clients| && Grows(s, s') && Alerts(s, s', u) &&
    (s'.clients[u] == s.clients[u] || exists id: nat :: s'.clients[u] == Notified(s.clients[u], id)) &&
    (if s.calls[u].Idle? then s'.calls[u].Idle? else !s'.calls[u].Idle? && s'.calls[u].op == s.calls[u].op) &&
    (s.clients[u].Loop? && s.clients[u].lpc.Handling? && s.clients[u].lpc.obj in s.heap ==>
      s.clients[u].lpc.obj in s'.heap)
  }

  lemma GenuineStable(w: World, s: State, s': State, n: Name, o: Obj)
    requires Grows(s, s') && Genuine(w, s, n, o)
    ensures Genuine(w, s', n, o)
  {
    if o in s'.heap { assert Follows(s, s', s.heap[o].item); }
  }

  lemma WatchStable(w: World, s: State, s': State, wt: Watch)
    requires Grows(s, s') && WatchOk(w, s, wt)
    ensures WatchOk(w, s', wt)
    ensures Caught(s, wt) ==> Caught(s', wt)
  {
    if wt.futex.Some? { assert Follows(s, s', wt.futex.value); }
    if wt.held.Some? { GenuineStable(w, s, s', wt.cap.name, wt.held.value); }
  }

  lemma LoopStable(w: World, s: State, s': State, u: Tid)
    requires u < |s.calls| == |s.clients| && s.clients[u].Loop? && LoopOk(w, s, u) && Env(s, s', u)
    ensures LoopOk(w, s', u)
  {
    var watch, pc := s.clients[u].watch, s.clients[u].lpc;
    assert s'.clients[u].watch == watch;
    forall i | 0 <= i < |watch| ensures WatchOk(w, s', watch[i]) && (Caught(s, watch[i]) ==> Caught(s', watch[i])) {
      WatchStable(w, s, s', watch[i]);
    }
    if pc.Ephemeral? || pc.Handling? || pc.Keeping? || pc.Swap? {
      var wt := watch[pc.i];
      SnapshotStable(s, s', wt.futex.value, wt.version, wt.seen, Some(pc.obj));
    }
    if pc.Blocked? { ArmedStable(s, s', u); }
  }

  lemma ArmedStable(s: State, s': State, u: Tid)
    requires u < |s.calls| == |s.clients| && s.clients[u].Loop? && s.clients[u].lpc.Blocked? && Env(s, s', u)
    requires forall i :: 0 <= i < |s.clients[u].watch| ==> Armed(s, s.clients[u].watch[i], s.clients[u].lpc.wakes)
    ensures s'.clients[u].Loop? && s'.clients[u].lpc.Blocked?
    ensures forall i :: 0 <= i < |s.clients[u].watch| ==> Armed(s', s.clients[u].watch[i], s'.clients[u].lpc.wakes)
  {
    var watch, wakes := s.clients[u].watch, s.clients[u].lpc.wakes;
    forall i | 0 <= i < |watch| ensures Armed(s', watch[i], s'.clients[u].lpc.wakes) {
      assert Armed(s, watch[i], wakes);
    }
  }

  lemma ProviderStable(w: World, s: State, s': State, u: Tid)
    requires u < |s.calls| == |s.clients| && s.clients[u].Provider? && ProviderOk(w, s, u) && Env(s, s', u)
    ensures ProviderOk(w, s', u)
  {
    var c := s.clients[u];
    assert s'.clients[u] == c;
    if c.config.Some? { GenuineStable(w, s, s', c.cap.name, c.config.value); }
    if c.spc.Secure? || c.spc.Compare? || c.spc.Adopt? { GenuineStable(w, s, s', c.cap.name, c.spc.obj); }
  }

  lemma ReplyStable(s: State, s': State, u: Tid)
    requires u < |s.calls| == |s'.calls| && ReplyOk(s, u) && Grows(s, s') && s'.calls[u] == s.calls[u]
    ensures ReplyOk(s', u)
  {
    var c := s.calls[u];
    if c.Returned? && c.reply.Found? {
      assert Follows(s, s', c.reply.id);
      SnapshotStable(s, s', c.reply.id, c.reply.version, c.reply.count, c.reply.data);
    }
  }

  lemma ClientStable(w: World, s: State, s': State, u: Tid)
    requires u < |s.calls| == |s.clients| && ClientOk(w, s, u) && Env(s, s', u)
    ensures ClientOk(w, s', u)
  {
    match s.clients[u]
    case Plain =>
    case Loop(_, _) => LoopStable(w, s, s', u);
    case Provider(_, _, _, _, _, _, _) => ProviderStable(w, s, s', u);
  }

  lemma SlotStable(c: Client, id: Id, i: nat, o: Obj)
    ensures SlotOf(Notified(c, id), i, o) == SlotOf(c, i, o)
  {}
}
