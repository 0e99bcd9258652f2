/** How the broker's state may evolve: the part of every step that all clients see. */
module Growth {
  import opened Base
  import opened Machine
  import opened Invariant
  import opened Preservation

  predicate Prefix(a: seq<Bytes>, b: seq<Bytes>) { |a| <= |b| && b[..|a|] == a }

  /** Items never move or vanish, published values are only added to, the object carrying
      the latest value is replaced only together with the count, and no finished object
      changes or comes back. */
  predicate Grows(s: State, s': State) {
    |s.items| <= |s'.items| && s.nextObj <= s'.nextObj && s.now <= s'.now &&
    (forall i :: 0 <= i < |s.items| ==> Follows(s, s', i)) &&
    (forall o :: o in s'.heap && o < s.nextObj ==> o in s.heap && Keeps(s.heap[o], s'.heap[o]))
  }

  predicate Follows(s: State, s': State, i: Id)
    requires i < |s.items| <= |s'.items|
  {
    s'.items[i].name == s.items[i].name && Prefix(s.items[i].values, s'.items[i].values) &&
    (|s'.items[i].values| == |s.items[i].values| ==> Current(s', i) == Current(s, i))
  }

  predicate Keeps(a: Object, b: Object) { b.item == a.item && (a.frozen ==> b == a) }

  /** What a get_config result says about the item: it is the state after exactly `count`
      successful updates.  The object may have been freed since, but then the count moved. */
  predicate Snapshot(s: State, id: Id, version: nat, count: nat, data: Option<Obj>) {
    id < |s.items| && count <= |s.items[id].values| && version == count % U32 &&
    (data.None? <==> count == 0) &&
    (data.Some? ==> data.value < s.nextObj) &&
    (data.Some? && data.value in s.heap && count > 0 ==>
      s.heap[data.value] == Object(id, s.items[id].values[count - 1], true)) &&
    (count == |s.items[id].values| ==> Current(s, id) == data)
  }

  lemma SnapshotStable(s: State, s': State, id: Id, version: nat, count: nat, data: Option<Obj>)
    requires Grows(s, s') && Snapshot(s, id, version, count, data)
    ensures Snapshot(s', id, version, count, data)
  {
    assert Follows(s, s', id);
    var a, b := s.items[id].values, s'.items[id].values;
    if count > 0 { assert b[count - 1] == b[..|a|][count - 1]; }
  }

  // ----- broker steps grow -------------------------------------------------------

  lemma WithinGrows(w: World, s: State, s': State, t: Tid, id: Id)
    requires BrokerInv(w, s) && t < |s.calls| && id < |s.items| && Within(w, s, s', t, id)
    requires s.calls[t].Working? && s.calls[t].id == id
    requires s.nextObj <= s'.nextObj && s.now <= s'.now && Follows(s, s', id)
    requires forall o :: o in s'.heap && o < s.nextObj ==> o in s.heap && Keeps(s.heap[o], s'.heap[o])
    ensures Grows(s, s')
  {
    forall j | 0 <= j < |s.items| ensures Follows(s, s', j) {
      assert LockOk(s, j);
      if j != id { assert HolderCall(s', j) == HolderCall(s, j); }
    }
  }

  lemma CheckGrows(w: World, s: State, t: Tid, ch: Choice)
    requires BrokerInv(w, s) && SetEnabled(w, s, t, ch) && (s.calls[t].pc.CheckParser? || s.calls[t].pc.ReadTick?)
    ensures Grows(s, SetStep(w, s, t, ch))
  {
    assert ThreadOk(w, s, t) && LockOk(s, s.calls[t].id);
    WithinGrows(w, s, SetStep(w, s, t, ch), t, s.calls[t].id);
  }

  lemma PassGrows(w: World, s: State, t: Tid, ch: Choice)
    requires BrokerInv(w, s) && SetEnabled(w, s, t, ch) && (s.calls[t].pc.CheckRate?)
    ensures Grows(s, SetStep(w, s, t, ch))
  {
    assert ThreadOk(w, s, t) && LockOk(s, s.calls[t].id);
    WithinGrows(w, s, SetStep(w, s, t, ch), t, s.calls[t].id);
  }

  lemma AllocateGrows(w: World, s: State, t: Tid, ch: Choice)
    requires BrokerInv(w, s) && SetEnabled(w, s, t, ch) && (s.calls[t].pc.Allocate?)
    ensures Grows(s, SetStep(w, s, t, ch))
  {
    assert ThreadOk(w, s, t) && LockOk(s, s.calls[t].id);
    WithinGrows(w, s, SetStep(w, s, t, ch), t, s.calls[t].id);
  }

  lemma ParsingGrows(w: World, s: State, t: Tid, ch: Choice)
    requires BrokerInv(w, s) && SetEnabled(w, s, t, ch) && (s.calls[t].pc.Parsing?)
    ensures Grows(s, SetStep(w, s, t, ch))
  {
    assert ThreadOk(w, s, t) && LockOk(s, s.calls[t].id);
    WithinGrows(w, s, SetStep(w, s, t, ch), t, s.calls[t].id);
  }

  lemma PublishGrows(w: World, s: State, t: Tid, ch: Choice)
    requires BrokerInv(w, s) && SetEnabled(w, s, t, ch) && (s.calls[t].pc.Store? || s.calls[t].pc.Bump?)
    ensures Grows(s, SetStep(w, s, t, ch))
  {
    assert ThreadOk(w, s, t) && LockOk(s, s.calls[t].id);
    WithinGrows(w, s, SetStep(w, s, t, ch), t, s.calls[t].id);
  }

  lemma DiscardGrows(w: World, s: State, t: Tid, ch: Choice)
    requires BrokerInv(w, s) && SetEnabled(w, s, t, ch) && s.calls[t].pc.Discard?
    ensures Grows(s, SetStep(w, s, t, ch))
  {
    assert ThreadOk(w, s, t) && LockOk(s, s.calls[t].id);
    WithinGrows(w, s, SetStep(w, s, t, ch), t, s.calls[t].id);
  }

  lemma FreeOldGrows(w: World, s: State, t: Tid, ch: Choice)
    requires BrokerInv(w, s) && SetEnabled(w, s, t, ch) && s.calls[t].pc.FreeOld?
    ensures Grows(s, SetStep(w, s, t, ch))
  {
    assert ThreadOk(w, s, t) && LockOk(s, s.calls[t].id);
    WithinGrows(w, s, SetStep(w, s, t, ch), t, s.calls[t].id);
  }

  lemma FinishGrows(w: World, s: State, t: Tid, ch: Choice)
    requires BrokerInv(w, s) && SetEnabled(w, s, t, ch) && (s.calls[t].pc.Notify? || s.calls[t].pc.Exit?)
    ensures Grows(s, SetStep(w, s, t, ch))
  {
    assert ThreadOk(w, s, t) && LockOk(s, s.calls[t].id);
    WithinGrows(w, s, SetStep(w, s, t, ch), t, s.calls[t].id);
  }

  lemma SetGrows(w: World, s: State, t: Tid, ch: Choice)
    requires BrokerInv(w, s) && SetEnabled(w, s, t, ch)
    ensures Grows(s, SetStep(w, s, t, ch))
  {
    match s.calls[t].pc
    case CheckParser => CheckGrows(w, s, t, ch);
    case ReadTick => CheckGrows(w, s, t, ch);
    case CheckRate(_) => PassGrows(w, s, t, ch);
    case Allocate => AllocateGrows(w, s, t, ch);
    case Parsing(_) => ParsingGrows(w, s, t, ch);
    case Store(_) => PublishGrows(w, s, t, ch);
    case Bump(_, _) => PublishGrows(w, s, t, ch);
    case Discard(_) => DiscardGrows(w, s, t, ch);
    case FreeOld(_) => FreeOldGrows(w, s, t, ch);
    case Notify(_) => FinishGrows(w, s, t, ch);
    case Exit(_) => FinishGrows(w, s, t, ch);
    case _ =>
  }

  lemma GetGrows(w: World, s: State, t: Tid)
    requires BrokerInv(w, s) && GetEnabled(s, t)
    ensures Grows(s, GetStep(s, t))
  {
    assert ThreadOk(w, s, t);
    WithinGrows(w, s, GetStep(s, t), t, s.calls[t].id);
  }

  lemma LockGrows(w: World, s: State, t: Tid)
    requires BrokerInv(w, s) && LockEnabled(s, t)
    ensures Grows(s, LockStep(s, t))
  {
    assert ThreadOk(w, s, t);
    WithinGrows(w, s, LockStep(s, t), t, s.calls[t].id);
  }

  lemma OutsideGrows(w: World, s: State, s': State, t: Tid)
    requires BrokerInv(w, s) && t < |s.calls| && Outside(w, s, s', t) && s'.now == s.now
    ensures Grows(s, s')
  {
    forall j | 0 <= j < |s.items| ensures Follows(s, s', j) {
      assert Same(s.items[j], s'.items[j]) && LockOk(s, j);
      assert HolderCall(s', j) == HolderCall(s, j);
    }
  }
}
