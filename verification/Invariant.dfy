/**
 What every step of the broker keeps: who holds which lock, what a setter in flight
 owns, what each item publishes, and an exact account of the broker's allocations.
 */
module Invariant {
  import opened Base
  import opened Machine

  // ----- one thread ----------------------------------------------------------

  /** Which pcs belong to which entry point. */
  predicate Fits(op: Op, pc: WorkPc) {
    match pc
    case WantItem => op.Set? || op.Get?
    case ReadVersion => op.Get? case ReadData(_, _) => op.Get? case Leave(_, _, _) => op.Get?
    case WriteSize => op.Register? case WriteTicks => op.Register? case WriteParser => op.Register?
    case _ => op.Set?
  }

  predicate PastCheck(pc: WorkPc) {
    pc.ReadTick? || pc.CheckRate? || pc.Allocate? || pc.Parsing? || pc.Discard? || pc.Store? ||
    pc.Bump? || pc.Notify? || pc.FreeOld?
  }

  /** Locks held, and the item a name was resolved to. */
  predicate Placed(s: State, t: Tid)
    requires t < |s.calls|
  {
    var c := s.calls[t];
    (HoldsList(c) ==> s.listLock == Some(t)) &&
    (c.Finding? || c.Working? ==> Unseals(c.op)) &&
    (c.Finding? && c.fpc.Linking? ==> forall i :: 0 <= i < |s.items| ==> s.items[i].name != c.op.cap.name) &&
    (c.Finding? && c.fpc.Leaving? && c.fpc.found.Some? ==>
      c.fpc.found.value < |s.items| && s.items[c.fpc.found.value].name == c.op.cap.name) &&
    (c.Working? ==>
      c.id < |s.items| && s.items[c.id].name == c.op.cap.name && Fits(c.op, c.pc) &&
      (HoldsItem(c) ==> s.items[c.id].lock == Some(t)))
  }

  /** What a registering thread has written, and what a setter has checked. */
  ghost predicate Registering(w: World, s: State, t: Tid)
    requires t < |s.calls|
  {
    var c := s.calls[t];
    (c.Called? || c.Finding? || c.Working? ==> Sensible(w, c.op)) &&
    (c.Working? && c.id < |s.items| ==>
      var it := s.items[c.id];
      (c.pc.WriteTicks? || c.pc.WriteParser? ==> it.name in w.tokens && it.size == w.tokens[it.name].size) &&
      (c.pc.WriteParser? ==> it.minTicks == w.tokens[it.name].minTicks) &&
      (PastCheck(c.pc) ==> it.parser))
  }

  /** The buffers of a setter, how far the parser has got with them, and a reader's copy. */
  ghost predicate Flying(w: World, s: State, t: Tid)
    requires t < |s.calls|
  {
    var c := s.calls[t];
    c.Working? && c.id < |s.items| ==>
      var it := s.items[c.id];
      match c.pc
      case Parsing(o) => Draft(w, s, c.id, o)
      case Discard(o) => Draft(w, s, c.id, o)
      case Store(o) => it.data != Some(o) && c.op.Set? && Finished(w, s, c.id, o, c.op.src)
      case Bump(o, prev) => it.data == Some(o) && prev != Some(o) && c.op.Set? && Finished(w, s, c.id, o, c.op.src)
      case Notify(prev) => it.data.Some? && Superseded(w, s, c.id, prev)
      case FreeOld(prev) => it.data.Some? && Superseded(w, s, c.id, prev)
      // a reader keeps the item lock, so what it has read stays current
      case ReadData(v, n) => v == it.version && n == |it.values|
      case Leave(v, n, d) => v == it.version && n == |it.values| && d == it.data
      case _ => true
  }

  /** A buffer only the parser can see. */
  ghost predicate Draft(w: World, s: State, id: Id, o: Obj)
    requires id < |s.items|
  {
    o in s.heap && s.heap[o].item == id && !s.heap[o].frozen && s.items[id].data != Some(o) &&
    s.items[id].name in w.tokens && |s.heap[o].bytes| == w.tokens[s.items[id].name].size
  }

  /** A buffer the parser has accepted, for the source given to this very call. */
  ghost predicate Finished(w: World, s: State, id: Id, o: Obj, src: Bytes)
    requires id < |s.items|
  {
    var n := s.items[id].name;
    o in s.heap && s.heap[o].item == id && s.heap[o].frozen && n in w.tokens &&
    |s.heap[o].bytes| == w.tokens[n].size && w.tokens[n].parses(src, s.heap[o].bytes)
  }

  /** A value that has been replaced and not yet freed. */
  ghost predicate Superseded(w: World, s: State, id: Id, prev: Option<Obj>)
    requires id < |s.items|
  {
    prev.Some? ==>
      prev.value in s.heap && s.heap[prev.value].item == id && s.items[id].data != prev &&
      s.heap[prev.value].frozen && Parsed(w, s.items[id].name, s.heap[prev.value].bytes)
  }

  ghost predicate ThreadOk(w: World, s: State, t: Tid)
    requires t < |s.calls|
  {
    Placed(s, t) && Registering(w, s, t) && Flying(w, s, t)
  }

  // ----- one item ------------------------------------------------------------

  predicate Registered(w: World, it: Item) {
    it.name in w.tokens && it.size == w.tokens[it.name].size && it.minTicks == w.tokens[it.name].minTicks
  }

  /** `d` is the object carrying the last of `values`, or null when there is none. */
  predicate Carries(heap: map<Obj, Object>, id: Id, d: Option<Obj>, values: seq<Bytes>) {
    (d.None? <==> values == []) &&
    (d.Some? && values != [] ==> d.value in heap && heap[d.value] == Object(id, values[|values| - 1], true))
  }

  ghost predicate ItemOk(w: World, s: State, id: Id)
    requires id < |s.items|
  {
    var it := s.items[id];
    it.version == |it.values| % U32 &&
    (it.parser ==> Registered(w, it)) &&
    (it.values != [] ==> it.parser) &&
    (forall k :: 0 <= k < |it.values| ==> Parsed(w, it.name, it.values[k])) &&
    Carries(s.heap, id, Current(s, id), it.values)
  }

  predicate LockOk(s: State, id: Id)
    requires id < |s.items|
  {
    var l := s.items[id].lock;
    l.Some? ==> l.value < |s.calls| && HoldsItem(s.calls[l.value]) && s.calls[l.value].id == id
  }

  // ----- the heap ------------------------------------------------------------

  /** The broker is responsible for `o`: it is published, or its item's setter has it. */
  predicate Held(s: State, o: Obj) {
    o in s.heap && s.heap[o].item < |s.items| &&
    (s.items[s.heap[o].item].data == Some(o) || InFlight(HolderCall(s, s.heap[o].item)) == Some(o))
  }

  ghost predicate HeapOk(s: State) {
    (forall o :: o in s.heap ==> o < s.nextObj) &&
    (forall c :: c in s.claims ==> c.obj in s.heap) &&
    (forall o :: s.claims[Claim(Broker, o)] == if Held(s, o) then 1 else 0)
  }

  predicate Names(s: State) {
    forall i, j :: 0 <= i < j < |s.items| ==> s.items[i].name != s.items[j].name
  }

  ghost predicate BrokerInv(w: World, s: State) {
    w.Ok() && Names(s) && HeapOk(s) &&
    (forall t :: 0 <= t < |s.calls| ==> ThreadOk(w, s, t)) &&
    (forall id :: 0 <= id < |s.items| ==> ItemOk(w, s, id) && LockOk(s, id))
  }

  // ----- what one thread may rely on while others move -----------------------

  /** The fields protected by the item lock. */
  predicate Same(a: Item, b: Item) {
    a.lock == b.lock && a.data == b.data && a.version == b.version && a.values == b.values &&
    a.nextUpdate == b.nextUpdate && a.passes == b.passes
  }

  /** Registration only ever moves towards the token. */
  predicate Settles(w: World, a: Item, b: Item) {
    a.name == b.name && (a.parser ==> b.parser) &&
    (a.name in w.tokens ==>
      (a.size == w.tokens[a.name].size ==> b.size == a.size) &&
      (a.minTicks == w.tokens[a.name].minTicks ==> b.minTicks == a.minTicks)) &&
    (a.parser ==> b.size == a.size && b.minTicks == a.minTicks)
  }

  /** `o` belongs to the broker, for an item that `u` has locked. */
  predicate Guards(s: State, u: Tid, o: Obj)
    requires o in s.heap
  {
    s.heap[o].item < |s.items| && s.items[s.heap[o].item].lock == Some(u) && Claim(Broker, o) in s.claims
  }

  ghost predicate Rely(w: World, s: State, s': State, u: Tid)
    requires u < |s.calls|
  {
    |s'.calls| == |s.calls| && s'.calls[u] == s.calls[u] &&
    |s.items| <= |s'.items| &&
    (forall i :: 0 <= i < |s.items| ==> Settles(w, s.items[i], s'.items[i])) &&
    (s.listLock == Some(u) ==> s'.listLock == Some(u) && |s'.items| == |s.items|) &&
    (forall i :: 0 <= i < |s.items| && s.items[i].lock == Some(u) ==> Same(s.items[i], s'.items[i])) &&
    (forall o :: o in s.heap && Guards(s, u, o) ==> o in s'.heap && s'.heap[o] == s.heap[o])
  }

  lemma InFlightClaimed(w: World, s: State, t: Tid)
    requires BrokerInv(w, s) && t < |s.calls| && InFlight(s.calls[t]).Some?
    ensures var o := InFlight(s.calls[t]).value;
      o in s.heap && s.heap[o].item == s.calls[t].id && Claim(Broker, o) in s.claims && s.claims[Claim(Broker, o)] == 1
  {
    var o := InFlight(s.calls[t]).value;
    assert ThreadOk(w, s, t) && ItemOk(w, s, s.calls[t].id);
    assert HolderCall(s, s.calls[t].id) == s.calls[t];
    assert Held(s, o);
    assert s.claims[Claim(Broker, o)] == 1;
  }

  lemma CurrentClaimed(w: World, s: State, id: Id)
    requires BrokerInv(w, s) && id < |s.items| && Current(s, id).Some?
    ensures var o := Current(s, id).value;
      o in s.heap && s.heap[o].item == id && s.heap[o].frozen && Claim(Broker, o) in s.claims
  {
    var o := Current(s, id).value;
    assert ItemOk(w, s, id) && LockOk(s, id);
    assert Held(s, o);
    assert s.claims[Claim(Broker, o)] == 1;
  }

  /** A thread's part of the invariant survives any interference that it may rely on. */
  lemma ThreadStable(w: World, s: State, s': State, u: Tid)
    requires BrokerInv(w, s) && u < |s.calls| && Rely(w, s, s', u)
    ensures ThreadOk(w, s', u)
  {
    var c := s.calls[u];
    assert ThreadOk(w, s, u);
    if InFlight(c).Some? { InFlightClaimed(w, s, u); }
    if c.Working? {
      assert Settles(w, s.items[c.id], s'.items[c.id]);
      assert ItemOk(w, s, c.id) && LockOk(s, c.id);
      if c.pc.Bump? {
        assert HolderCall(s, c.id) == c;
        assert Held(s, c.pc.obj);
        assert s.claims[Claim(Broker, c.pc.obj)] == 1;
      }
    }
  }
}
