/** What the invariant means for consumers, providers and the heap, in every run. */
module Theorems {
  import opened Base
  import opened Machine
  import opened Invariant
  import opened Growth
  import opened Clients
  import opened Runs
  import opened Adoption

  // ----- no update is lost -----------------------------------------------------------

  predicate Waiting(s: State, t: Tid) {
    t < |s.clients| && s.clients[t].Loop? && s.clients[t].lpc == Blocked({})
  }

  /** While a consumer is blocked and not yet woken, an item whose version differs from
      the recorded one has a setter between its version bump and its notify_all. */
  lemma NoLostUpdate(w: World, tr: seq<State>, k: nat, t: Tid, i: nat)
    requires Run(w, tr) && k < |tr| && Waiting(tr[k], t) && i < |tr[k].clients[t].watch|
    ensures var s, wt := tr[k], tr[k].clients[t].watch[i];
      wt.futex.Some? && wt.futex.value < |s.items| &&
      (s.items[wt.futex.value].version != wt.version ==>
        exists u :: 0 <= u < |s.calls| &&
          s.calls[u].Working? && s.calls[u].id == wt.futex.value && s.calls[u].pc.Notify?)
  {
    RunInv(w, tr, k);
    assert ClientOk(w, tr[k], t) && Armed(tr[k], tr[k].clients[t].watch[i], {});
  }

  /** Once the setters of an item are quiet, a blocked consumer has read its latest value
      exactly when fewer than 2^32 values were published since its last read. */
  lemma CaughtUpExactly(w: World, tr: seq<State>, k: nat, t: Tid, i: nat)
    requires Run(w, tr) && k < |tr| && Waiting(tr[k], t) && i < |tr[k].clients[t].watch|
    requires var f := tr[k].clients[t].watch[i].futex; f.Some? ==> !Notifying(tr[k], f.value)
    ensures var s, wt := tr[k], tr[k].clients[t].watch[i];
      wt.futex.Some? && wt.futex.value < |s.items| &&
      var n := |s.items[wt.futex.value].values|;
      (wt.seen == n <==> n < wt.seen + U32) &&
      // and then its handler has been called with it
      (wt.seen == n > 0 ==> wt.delivered == n)
  {
    RunInv(w, tr, k);
    var s, wt := tr[k], tr[k].clients[t].watch[i];
    assert ClientOk(w, s, t) && Armed(s, wt, {}) && WatchOk(w, s, wt) && Caught(s, wt);
    var n := |s.items[wt.futex.value].values|;
    assert ItemOk(w, s, wt.futex.value);
    if n < wt.seen + U32 { SameResidue(wt.seen, n); }
  }

  lemma SameResidue(a: nat, b: nat)
    requires a <= b < a + U32 && a % U32 == b % U32
    ensures a == b
  {}

  /** An item that was read but not handed to its handler, because the claim failed, is
      read again as soon as the consumer reaches its wait. */
  lemma UndeliveredIsReread(w: World, tr: seq<State>, k: nat, t: Tid, i: nat, ch: Choice)
    requires Run(w, tr) && k < |tr| && LoopEnabled(tr[k], t, ch)
    requires var s, c := tr[k], tr[k].clients[t];
      c.lpc.Scan? && c.lpc.i >= |c.watch| && Futexes(s, c.watch) && i < |c.watch| &&
      c.watch[i].seen > 0 && c.watch[i].delivered != c.watch[i].seen &&
      |s.items[c.watch[i].futex.value].values| < c.watch[i].seen + U32
    ensures var c' := LoopStep(tr[k], t, ch).clients[t];
      c'.lpc.Scan? && c'.lpc.i == 0 && i < |c'.lpc.fired| && c'.lpc.fired[i]
  {
    RunInv(w, tr, k);
    var s, watch := tr[k], tr[k].clients[t].watch;
    var wt := watch[i];
    assert ClientOk(w, s, t) && WatchOk(w, s, wt) && Caught(s, wt) && ItemOk(w, s, wt.futex.value);
    var n := |s.items[wt.futex.value].values|;
    if n % U32 == wt.seen % U32 { SameResidue(wt.seen, n); }
    assert Moved(s, watch)[i];
  }

  /** A refused ephemeral claim means a newer value has already been counted. */
  lemma RefusedMeansSuperseded(w: World, tr: seq<State>, k: nat, t: Tid)
    requires Run(w, tr) && k < |tr| && LoopEnabled(tr[k], t, Fail) && tr[k].clients[t].lpc.Ephemeral?
    ensures var s, wt := tr[k], tr[k].clients[t].watch[tr[k].clients[t].lpc.i];
      wt.futex.Some? && wt.futex.value < |s.items| && wt.seen < |s.items[wt.futex.value].values|
  {
    RunInv(w, tr, k);
    var s, wt := tr[k], tr[k].clients[t].watch[tr[k].clients[t].lpc.i];
    assert ClientOk(w, s, t);
    if wt.seen == |s.items[wt.futex.value].values| {
      CurrentOwned(w, s, wt.futex.value);
    }
  }

  lemma CurrentOwned(w: World, s: State, id: Id)
    requires BrokerInv(w, s) && id < |s.items| && Current(s, id).Some?
    ensures Claimed(s, Current(s, id).value)
  {
    CurrentClaimed(w, s, id);
    assert Claim(Broker, Current(s, id).value).obj == Current(s, id).value;
  }

  // ----- handlers ----------------------------------------------------------------------

  /** A handler runs on a live object: the value that was published as number `seen`. */
  lemma HandlerSafe(w: World, tr: seq<State>, k: nat, t: Tid)
    requires Run(w, tr) && k < |tr| && t < |tr[k].clients|
    requires tr[k].clients[t].Loop? && tr[k].clients[t].lpc.Handling?
    ensures var s, c := tr[k], tr[k].clients[t];
      c.lpc.i < |c.watch| && c.lpc.obj in s.heap &&
      var wt, o := c.watch[c.lpc.i], s.heap[c.lpc.obj];
      wt.futex.Some? && wt.futex.value < |s.items| && wt.cap.Sealed? &&
      0 < wt.seen <= |s.items[wt.futex.value].values| &&
      o == Object(wt.futex.value, s.items[wt.futex.value].values[wt.seen - 1], true) &&
      Parsed(w, wt.cap.name, o.bytes)
  {
    RunInv(w, tr, k);
    var s, c := tr[k], tr[k].clients[t];
    assert ClientOk(w, s, t) && WatchOk(w, s, c.watch[c.lpc.i]);
    assert ItemOk(w, s, c.watch[c.lpc.i].futex.value);
  }

  /** And it stays the same live object while the ephemeral claim is held, whatever the
      broker publishes and frees meanwhile. */
  lemma HandlerUndisturbed(w: World, tr: seq<State>, j: nat, k: nat, t: Tid)
    requires Run(w, tr) && j <= k < |tr| && t < |tr[j].clients| && t < |tr[k].clients|
    requires tr[j].clients[t].Loop? && tr[j].clients[t].lpc.Handling?
    requires tr[k].clients[t].Loop? && tr[k].clients[t].lpc == tr[j].clients[t].lpc
    ensures var o := tr[j].clients[t].lpc.obj;
      o in tr[j].heap && o in tr[k].heap && tr[k].heap[o] == tr[j].heap[o]
  {
    HandlerSafe(w, tr, j, t);
    HandlerSafe(w, tr, k, t);
    RunInv(w, tr, j);
    RunGrows(w, tr, j, k);
  }

  // ----- claims ---------------------------------------------------------------------------

  /** Outside its own handover a handler owns nothing but the object its static pointer
      names, and that one exactly once; unless a heap_claim for it had a negative result,
      which logger_handler takes for success, and it then owns nothing.  What it owns is live
      and is value number `kept` of its item; the broker may have freed it long ago. */
  lemma ClaimBalance(w: World, tr: seq<State>, k: nat, t: Tid, i: nat)
    requires Run(w, tr) && k < |tr| && t < |tr[k].clients| && tr[k].clients[t].Loop?
    requires var c := tr[k].clients[t];
      i < |c.watch| && !(c.lpc.Swap? && c.lpc.i == i) && !(c.lpc.Release? && c.lpc.i == i)
    ensures var s, wt := tr[k], tr[k].clients[t].watch[i];
      (forall o :: s.claims[Claim(Handler(t, i), o)] == if wt.held == Some(o) && wt.sound then 1 else 0) &&
      ((forall o :: s.claims[Claim(Handler(t, i), o)] == if wt.held == Some(o) then 1 else 0) <==>
       wt.held.None? || wt.sound) &&
      (wt.held.Some? <==> wt.kept > 0) &&
      (wt.held.Some? ==> wt.cap.Sealed? && Carried(s, wt.cap.name, wt.held.value, wt.kept)) &&
      (wt.held.Some? && wt.sound ==>
        wt.held.value in s.heap && Parsed(w, wt.cap.name, s.heap[wt.held.value].bytes))
  {
    RunInv(w, tr, k);
    RunAdopted(w, tr, k);
    var s, wt := tr[k], tr[k].clients[t].watch[i];
    assert ClientOk(w, s, t) && WatchOk(w, s, wt);
    assert HoldsOk(s, s.clients[t], s.calls[t]) && KeepOk(s, wt, InHandler(s.clients[t].lpc, i));
    forall o: Obj ensures s.claims[Claim(Handler(t, i), o)] == if wt.held == Some(o) && wt.sound then 1 else 0 {
      assert s.claims[Claim(Handler(t, i), o)] == Slot(s, t, i, o);
    }
    if wt.held.Some? && wt.sound { assert Claim(Handler(t, i), wt.held.value) in s.claims; }
  }

  /** During the handover the new object and the old one are both owned, as far as they ever
      were: two claims on one object when the same value is delivered again. */
  lemma HandoverBalance(w: World, tr: seq<State>, k: nat, t: Tid)
    requires Run(w, tr) && k < |tr| && t < |tr[k].clients| && tr[k].clients[t].Loop?
    requires tr[k].clients[t].lpc.Swap? && tr[k].clients[t].lpc.i < |tr[k].clients[t].watch|
    ensures var s, pc := tr[k], tr[k].clients[t].lpc;
      var wt := s.clients[t].watch[pc.i];
      (pc.granted ==> pc.obj in s.heap) &&
      forall o :: s.claims[Claim(Handler(t, pc.i), o)] ==
        One(wt.held == Some(o) && wt.sound) + One(pc.obj == o && pc.granted)
  {
    RunInv(w, tr, k);
    var s, pc := tr[k], tr[k].clients[t].lpc;
    var wt := s.clients[t].watch[pc.i];
    forall o: Obj
      ensures s.claims[Claim(Handler(t, pc.i), o)] ==
        One(wt.held == Some(o) && wt.sound) + One(pc.obj == o && pc.granted)
    {
      assert s.claims[Claim(Handler(t, pc.i), o)] == Slot(s, t, pc.i, o);
    }
    if pc.granted {
      assert s.claims[Claim(Handler(t, pc.i), pc.obj)] >= 1;
      assert Claim(Handler(t, pc.i), pc.obj) in s.claims;
    }
  }

  /** Once the setters of its item are quiet, a blocked consumer whose last claim was not
      refused keeps the latest value, unless 2^32 were published since it read. */
  lemma KeeperHasLatest(w: World, tr: seq<State>, k: nat, t: Tid, i: nat)
    requires Run(w, tr) && k < |tr| && Waiting(tr[k], t) && i < |tr[k].clients[t].watch|
    requires var wt := tr[k].clients[t].watch[i];
      wt.keeps && !wt.refused && wt.sound &&
      (wt.futex.Some? ==> !Notifying(tr[k], wt.futex.value)) &&
      wt.cap.Sealed? && |Values(tr[k], wt.cap.name)| < wt.seen + U32
    ensures var s, wt := tr[k], tr[k].clients[t].watch[i];
      var values := Values(s, wt.cap.name);
      if values == [] then wt.held.None?
      else wt.held.Some? && wt.held.value in s.heap &&
           s.heap[wt.held.value].bytes == values[|values| - 1]
  {
    CaughtUpExactly(w, tr, k, t, i);
    ClaimBalance(w, tr, k, t, i);
    RunInv(w, tr, k);
    RunAdopted(w, tr, k);
    var s, wt := tr[k], tr[k].clients[t].watch[i];
    assert ClientOk(w, s, t) && WatchOk(w, s, wt);
    assert HoldsOk(s, s.clients[t], s.calls[t]) && KeepOk(s, wt, InHandler(s.clients[t].lpc, i));
    ValuesAt(s, wt.futex.value);
  }

  /** A step other than a heap_claim with a negative result. */
  ghost predicate NextNoError(w: World, s: State, s': State) {
    exists st :: Enabled(w, s, st) && (st.LoopIt? ==> !st.ch.Error?) && s' == Apply(w, s, st)
  }

  predicate AllSound(s: State) {
    forall t :: 0 <= t < |s.clients| ==> SoundClient(s.clients[t])
  }

  predicate SoundClient(c: Client) {
    c.Loop? ==>
      (forall i :: 0 <= i < |c.watch| ==> c.watch[i].sound) &&
      (c.lpc.Swap? ==> c.lpc.granted) && (c.lpc.Release? ==> c.lpc.had)
  }

  lemma SoundTurn(s: State, t: Tid, ch: Choice, s': State)
    requires LoopEnabled(s, t, ch) && !ch.Error? && s' == LoopStep(s, t, ch) && SoundClient(s.clients[t])
    requires Sized(s, s')
    ensures SoundClient(s'.clients[t])
  {
    match s.clients[t].lpc
    case Keeping(_, _, _) => SoundClaim(s, t, ch, s');
    case Swap(_, _, _, _) => SoundClaim(s, t, ch, s');
    case Release(_, _, _, _) => SoundRelease(s, t, ch, s');
    case Await(_, _) => SoundRead(s, t, ch, s');
    case Ephemeral(_, _, _) => SoundRead(s, t, ch, s');
    case _ => SoundIdle(s, t, ch, s');
  }

  lemma SoundClaim(s: State, t: Tid, ch: Choice, s': State)
    requires LoopEnabled(s, t, ch) && !ch.Error? && s' == LoopStep(s, t, ch) && SoundClient(s.clients[t])
    requires Sized(s, s') && (s.clients[t].lpc.Keeping? || s.clients[t].lpc.Swap?)
    ensures SoundClient(s'.clients[t])
  {}

  lemma SoundRelease(s: State, t: Tid, ch: Choice, s': State)
    requires LoopEnabled(s, t, ch) && s' == LoopStep(s, t, ch) && SoundClient(s.clients[t])
    requires Sized(s, s') && s.clients[t].lpc.Release?
    ensures SoundClient(s'.clients[t])
  {}

  lemma SoundRead(s: State, t: Tid, ch: Choice, s': State)
    requires LoopEnabled(s, t, ch) && s' == LoopStep(s, t, ch) && SoundClient(s.clients[t])
    requires Sized(s, s') && (s.clients[t].lpc.Await? || s.clients[t].lpc.Ephemeral?)
    ensures SoundClient(s'.clients[t])
  {}

  lemma SoundIdle(s: State, t: Tid, ch: Choice, s': State)
    requires LoopEnabled(s, t, ch) && s' == LoopStep(s, t, ch) && SoundClient(s.clients[t])
    requires Sized(s, s') && (s.clients[t].lpc.Scan? || s.clients[t].lpc.Handling? || s.clients[t].lpc.Blocked?)
    ensures SoundClient(s'.clients[t])
  {}

  lemma NextSound(w: World, s: State, s': State)
    requires Inv(w, s) && Inv(w, s') && AllSound(s) && NextNoError(w, s, s')
    ensures AllSound(s')
  {
    var st :| Enabled(w, s, st) && (st.LoopIt? ==> !st.ch.Error?) && s' == Apply(w, s, st);
    StepSizes(w, s, st, s');
    forall u | 0 <= u < |s'.clients| ensures SoundClient(s'.clients[u]) {
      assert SoundClient(s.clients[u]);
      SoundAfter(w, s, st, s', u);
    }
  }

  lemma SoundAfter(w: World, s: State, st: Step, s': State, u: Tid)
    requires Inv(w, s) && Enabled(w, s, st) && (st.LoopIt? ==> !st.ch.Error?) && s' == Apply(w, s, st)
    requires Sized(s, s') && u < |s.clients| && SoundClient(s.clients[u])
    ensures SoundClient(s'.clients[u])
  {
    if st.Tick? || st.Reclaim? || st.t != u {
      StepAside(w, s, st, u);
    } else if st.LoopIt? {
      SoundTurn(s, u, st.ch, s');
    } else if !st.PlainIt? && !st.StatusIt? {
      OwnStill(w, s, st, s');
    }
  }

  /** If no heap_claim ever has a negative result, every handler owns what its pointer names. */
  lemma {:induction false} SoundWithoutErrors(w: World, tr: seq<State>, k: nat)
    requires Run(w, tr) && k < |tr| && forall j :: 0 < j < |tr| ==> NextNoError(w, tr[j - 1], tr[j])
    ensures AllSound(tr[k])
  {
    if k > 0 {
      SoundWithoutErrors(w, tr, k - 1);
      RunInv(w, tr, k - 1);
      RunInv(w, tr, k);
      NextSound(w, tr[k - 1], tr[k]);
    }
  }

  /** update_status: both configurations are live when their ids are compared, the old one is
      value number `taken`, and between calls exactly the one named by the static pointer is
      claimed. */
  lemma StatusBalance(w: World, tr: seq<State>, k: nat, t: Tid)
    requires Run(w, tr) && k < |tr| && t < |tr[k].clients| && tr[k].clients[t].Provider?
    ensures var s, c := tr[k], tr[k].clients[t];
      (c.spc.Rest? ==> forall o :: s.claims[Claim(Handler(t, 0), o)] == if c.config == Some(o) then 1 else 0) &&
      (!c.spc.Adopt? && c.config.Some? ==>
        c.config.value in s.heap && c.cap.Sealed? && Parsed(w, c.cap.name, s.heap[c.config.value].bytes) &&
        Carried(s, c.cap.name, c.config.value, c.taken)) &&
      (c.spc.Compare? ==> c.spc.obj in s.heap && c.cap.Sealed? && Parsed(w, c.cap.name, s.heap[c.spc.obj].bytes))
  {
    RunInv(w, tr, k);
    RunAdopted(w, tr, k);
    var s, c := tr[k], tr[k].clients[t];
    assert ClientOk(w, s, t) && HoldsOk(s, c, s.calls[t]);
    forall o: Obj ensures s.claims[Claim(Handler(t, 0), o)] == SlotOf(c, 0, o) {
      assert s.claims[Claim(Handler(t, 0), o)] == Slot(s, t, 0, o);
    }
    if !c.spc.Adopt? && c.config.Some? { assert Claim(Handler(t, 0), c.config.value) in s.claims; }
    if c.spc.Compare? { assert Claim(Handler(t, 0), c.spc.obj) in s.claims; }
  }

  // ----- the broker's heap -------------------------------------------------------------------

  ghost function Owned(s: State, id: Id): set<Obj> {
    set o | o in s.heap && s.heap[o].item == id && Claim(Broker, o) in s.claims
  }

  function Opt(d: Option<Obj>): set<Obj> {
    if d.Some? then {d.value} else {}
  }

  /** The broker's allocations for an item are exactly the published object and the one in
      the hands of the setter that has the item lock: no leak, no double ownership. */
  lemma HeapConserved(w: World, tr: seq<State>, k: nat, id: Id)
    requires Run(w, tr) && k < |tr| && id < |tr[k].items|
    ensures Owned(tr[k], id) == Opt(tr[k].items[id].data) + Opt(InFlight(HolderCall(tr[k], id)))
    ensures forall o :: tr[k].claims[Claim(Broker, o)] <= 1
  {
    RunInv(w, tr, k);
    var s := tr[k];
    assert ItemOk(w, s, id) && LockOk(s, id);
    var h := HolderCall(s, id);
    forall o
      ensures s.claims[Claim(Broker, o)] <= 1
      ensures o in Owned(s, id) <==> o in Opt(s.items[id].data) + Opt(InFlight(h))
    {
      assert s.claims[Claim(Broker, o)] == if Held(s, o) then 1 else 0;
      if InFlight(h) == Some(o) { InFlightClaimed(w, s, s.items[id].lock.value); }
      if s.items[id].data == Some(o) { DataKnown(w, s, id); }
    }
  }

  lemma DataKnown(w: World, s: State, id: Id)
    requires BrokerInv(w, s) && id < |s.items| && s.items[id].data.Some?
    ensures var o := s.items[id].data.value;
      o in s.heap && s.heap[o].item == id && s.heap[o].frozen && Parsed(w, s.items[id].name, s.heap[o].bytes)
  {
    assert ItemOk(w, s, id) && LockOk(s, id);
    if s.items[id].lock.Some? { assert ThreadOk(w, s, s.items[id].lock.value); }
  }

  /** Every object the broker owns for a registered item has the registered size, so a
      provider can make it use at most twice that. */
  lemma TwiceTheSize(w: World, tr: seq<State>, k: nat, id: Id)
    requires Run(w, tr) && k < |tr| && id < |tr[k].items|
    ensures |Owned(tr[k], id)| <= 2
    ensures forall o :: o in Owned(tr[k], id) ==>
      tr[k].items[id].name in w.tokens && |tr[k].heap[o].bytes| == w.tokens[tr[k].items[id].name].size
  {
    HeapConserved(w, tr, k, id);
    RunInv(w, tr, k);
    var s := tr[k];
    var a, b := Opt(s.items[id].data), Opt(InFlight(HolderCall(s, id)));
    assert |a + b| == |a| + |b| - |a * b|;
    forall o | o in Owned(s, id)
      ensures s.items[id].name in w.tokens && |s.heap[o].bytes| == w.tokens[s.items[id].name].size
    {
      if o in a { DataKnown(w, s, id); } else { FlightSize(w, s, id); }
    }
  }

  lemma FlightSize(w: World, s: State, id: Id)
    requires BrokerInv(w, s) && id < |s.items| && InFlight(HolderCall(s, id)).Some?
    ensures var o := InFlight(HolderCall(s, id)).value;
      o in s.heap && s.items[id].name in w.tokens && |s.heap[o].bytes| == w.tokens[s.items[id].name].size
  {
    assert ItemOk(w, s, id) && LockOk(s, id) && ThreadOk(w, s, s.items[id].lock.value);
  }

  /** A setter that holds the item lock is never stuck: what it is about to read is there,
      and what it is about to free is still the broker's. */
  lemma SetterNeverFaults(w: World, tr: seq<State>, k: nat, t: Tid)
    requires Run(w, tr) && k < |tr| && t < |tr[k].calls|
    requires HoldsItem(tr[k].calls[t]) && tr[k].calls[t].op.Set?
    ensures SetEnabled(w, tr[k], t, Fail)
  {
    RunInv(w, tr, k);
    assert ThreadOk(w, tr[k], t);
    if InFlight(tr[k].calls[t]).Some? { InFlightClaimed(w, tr[k], t); }
  }

  // ----- registration, validation, the list -----------------------------------------------

  /** The three unlocked stores of set_parser: whoever sees the parser sees its size and
      interval. */
  lemma RegisteredBeforeUse(w: World, tr: seq<State>, k: nat, t: Tid)
    requires Run(w, tr) && k < |tr| && t < |tr[k].calls| && tr[k].calls[t].Working? && PastCheck(tr[k].calls[t].pc)
    ensures var s, c := tr[k], tr[k].calls[t];
      c.op.cap.Sealed? && c.op.cap.name in w.tokens && c.id < |s.items| &&
      s.items[c.id].size == w.tokens[c.op.cap.name].size &&
      s.items[c.id].minTicks == w.tokens[c.op.cap.name].minTicks
  {
    RunInv(w, tr, k);
    assert ThreadOk(w, tr[k], t) && ItemOk(w, tr[k], tr[k].calls[t].id);
  }

  /** Everything anyone outside the broker can have been given. */
  predicate Reachable(s: State, o: Obj) {
    (exists i :: 0 <= i < |s.items| && s.items[i].data == Some(o)) ||
    (exists t :: 0 <= t < |s.calls| && Answers(s.calls[t], o)) ||
    (exists t :: 0 <= t < |s.clients| && Mentions(s.clients[t], o))
  }

  predicate Answers(c: Call, o: Obj) { c.Returned? && c.reply.Found? && c.reply.data == Some(o) }

  predicate Mentions(c: Client, o: Obj) {
    match c
    case Plain => false
    case Loop(watch, pc) =>
      (exists i :: 0 <= i < |watch| && watch[i].held == Some(o)) ||
      ((pc.Ephemeral? || pc.Handling? || pc.Keeping? || pc.Swap?) && pc.obj == o)
    case Provider(_, _, config, _, _, _, pc) =>
      config == Some(o) || ((pc.Secure? || pc.Compare? || pc.Adopt?) && pc.obj == o)
  }

  /** A live object that anyone can name was accepted by the parser for its item; so a
      buffer whose parser failed or faulted part way is never visible. */
  lemma OnlyValidatedVisible(w: World, tr: seq<State>, k: nat, o: Obj)
    requires Run(w, tr) && k < |tr| && Reachable(tr[k], o) && o in tr[k].heap
    ensures var s, x := tr[k], tr[k].heap[o];
      x.frozen && x.item < |s.items| && Parsed(w, s.items[x.item].name, x.bytes)
  {
    RunInv(w, tr, k);
    var s := tr[k];
    if i :| 0 <= i < |s.items| && s.items[i].data == Some(o) {
      DataKnown(w, s, i);
    } else if t :| 0 <= t < |s.calls| && Answers(s.calls[t], o) {
      assert ReplyOk(s, t) && ItemOk(w, s, s.calls[t].reply.id);
    } else {
      var t :| 0 <= t < |s.clients| && Mentions(s.clients[t], o);
      ClientNames(w, s, t, o);
    }
  }

  lemma ClientNames(w: World, s: State, t: Tid, o: Obj)
    requires Inv(w, s) && t < |s.clients| && Mentions(s.clients[t], o) && o in s.heap
    ensures s.heap[o].frozen && s.heap[o].item < |s.items| && Parsed(w, s.items[s.heap[o].item].name, s.heap[o].bytes)
  {
    assert ClientOk(w, s, t);
    if s.clients[t].Loop? {
      var watch, pc := s.clients[t].watch, s.clients[t].lpc;
      if i :| 0 <= i < |watch| && watch[i].held == Some(o) {
        assert WatchOk(w, s, watch[i]);
      } else {
        assert WatchOk(w, s, watch[pc.i]) && ItemOk(w, s, watch[pc.i].futex.value);
      }
    }
  }

  /** Two calls on one name work on one item, whoever created it. */
  lemma OneItemPerName(w: World, tr: seq<State>, k: nat, t: Tid, u: Tid)
    requires Run(w, tr) && k < |tr| && t < |tr[k].calls| && u < |tr[k].calls|
    requires tr[k].calls[t].Working? && tr[k].calls[u].Working?
    ensures var c, d := tr[k].calls[t], tr[k].calls[u];
      c.op.cap.Sealed? && d.op.cap.Sealed? && (c.id == d.id <==> c.op.cap.name == d.op.cap.name)
  {
    RunInv(w, tr, k);
    assert ThreadOk(w, tr[k], t) && ThreadOk(w, tr[k], u);
  }

  /** A step inside a call leaves every item of another name exactly as it was. */
  lemma OthersUntouched(w: World, tr: seq<State>, k: nat, st: Step, j: Id)
    requires Run(w, tr) && k < |tr| && Enabled(w, tr[k], st) && j < |tr[k].items|
    requires st.Unseal? || st.FindIt? || st.Lock? || st.SetIt? || st.GetIt? || st.RegisterIt?
    requires st.t < |tr[k].calls| && !tr[k].calls[st.t].Idle?
    requires tr[k].calls[st.t].op.cap != Sealed(KeyOf(tr[k].calls[st.t].op), tr[k].items[j].name)
    ensures j < |Apply(w, tr[k], st).items| && Apply(w, tr[k], st).items[j] == tr[k].items[j]
  {
    RunInv(w, tr, k);
    assert ThreadOk(w, tr[k], st.t);
  }
}
