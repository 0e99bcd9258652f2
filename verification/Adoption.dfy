/** Which published value a client keeps: the logger handler and update_status, in every run. */
module Adoption {
  import opened Base
  import opened Machine
  import opened Invariant
  import opened Growth
  import opened Clients
  import opened Runs

  // ----- the published values of a name --------------------------------------------

  function Values(s: State, n: Name): seq<Bytes> {
    var r := FindItem(s.items, n);
    if r.Some? then s.items[r.value].values else []
  }

  lemma ValuesAt(s: State, id: Id)
    requires Names(s) && id < |s.items|
    ensures Values(s, s.items[id].name) == s.items[id].values
  {
    var r := FindItem(s.items, s.items[id].name);
    assert r.Some? && r.value == id;
  }

  lemma ValuesGrow(s: State, s': State, n: Name)
    requires Names(s') && Grows(s, s')
    ensures Prefix(Values(s, n), Values(s', n))
  {
    var r := FindItem(s.items, n);
    if r.Some? {
      assert Follows(s, s', r.value);
      ValuesAt(s', r.value);
    }
  }

  /** `o` was published as value number `k` of the item called `n`; it may be gone. */
  predicate Carried(s: State, n: Name, o: Obj, k: nat) {
    0 < k <= |Values(s, n)| && o < s.nextObj &&
    (o in s.heap ==> s.heap[o].frozen && s.heap[o].bytes == Values(s, n)[k - 1])
  }

  lemma CarriedStable(s: State, s': State, n: Name, o: Obj, k: nat)
    requires Names(s') && Grows(s, s') && Carried(s, n, o, k)
    ensures Carried(s', n, o, k)
  {
    ValuesGrow(s, s', n);
    var a, b := Values(s, n), Values(s', n);
    assert b[k - 1] == b[..|a|][k - 1];
  }

  lemma SnapshotCarried(s: State, id: Id, v: nat, k: nat, o: Obj)
    requires Names(s) && Snapshot(s, id, v, k, Some(o))
    ensures Carried(s, s.items[id].name, o, k)
  {
    ValuesAt(s, id);
  }

  // ----- what a client knows ----------------------------------------------------------

  predicate InHandler(pc: LoopPc, i: nat) { (pc.Handling? || pc.Keeping? || pc.Swap?) && pc.i == i }

  /** The kept pointer names value number `kept`; unless the last claim was refused, that is
      the value the handler was last called with. */
  predicate KeepOk(s: State, wt: Watch, busy: bool) {
    (wt.held.Some? <==> wt.kept > 0) &&
    (wt.held.Some? ==> wt.cap.Sealed? && Carried(s, wt.cap.name, wt.held.value, wt.kept)) &&
    (if busy then wt.delivered == wt.seen else wt.keeps && !wt.refused ==> wt.kept == wt.delivered)
  }

  /** What a get_config in progress has read is not older than `seen`. */
  predicate Later(c: Call, seen: nat) {
    (c.Working? && (c.pc.ReadData? || c.pc.Leave?) ==> seen <= c.pc.count) &&
    (c.Returned? && c.reply.Found? ==> seen <= c.reply.count)
  }

  predicate TakeOk(s: State, c: Client, call: Call)
    requires c.Provider?
  {
    (c.config.Some? <==> c.taken > 0) &&
    (c.config.Some? ==> c.cap.Sealed? && Carried(s, c.cap.name, c.config.value, c.taken)) &&
    c.taken <= c.seen &&
    (c.seen > 0 ==> c.cap.Sealed? && c.seen <= |Values(s, c.cap.name)|) &&
    match c.spc
    case Rest => (c.taken == c.seen <==> !c.refused)
    case Fetch => (c.taken == c.seen <==> !c.refused) && Later(call, c.seen)
    case Secure(o) => c.taken < c.seen && Carried(s, c.cap.name, o, c.seen)
    case Compare(o) => c.taken < c.seen && Carried(s, c.cap.name, o, c.seen) && !c.refused
    case Adopt(o) => c.taken < c.seen && Carried(s, c.cap.name, o, c.seen) && !c.refused
  }

  predicate HoldsOk(s: State, c: Client, call: Call) {
    match c
    case Plain => true
    case Loop(watch, pc) => forall i :: 0 <= i < |watch| ==> KeepOk(s, watch[i], InHandler(pc, i))
    case Provider(_, _, _, _, _, _, _) => TakeOk(s, c, call)
  }

  predicate Adopted(s: State) {
    |s.calls| == |s.clients| && forall t :: 0 <= t < |s.clients| ==> HoldsOk(s, s.clients[t], s.calls[t])
  }

  lemma HoldsStable(s: State, s': State, c: Client, call: Call, id: Id)
    requires Names(s') && Grows(s, s') && HoldsOk(s, c, call)
    ensures HoldsOk(s', c, call) && HoldsOk(s', Notified(c, id), call)
  {
    match c
    case Plain =>
    case Loop(watch, pc) =>
      forall i | 0 <= i < |watch| ensures KeepOk(s', watch[i], InHandler(pc, i)) {
        assert KeepOk(s, watch[i], InHandler(pc, i));
        if watch[i].held.Some? { CarriedStable(s, s', watch[i].cap.name, watch[i].held.value, watch[i].kept); }
      }
    case Provider(_, _, _, _, _, _, pc) =>
      if c.config.Some? { CarriedStable(s, s', c.cap.name, c.config.value, c.taken); }
      if c.seen > 0 { ValuesGrow(s, s', c.cap.name); }
      if pc.Secure? || pc.Compare? || pc.Adopt? { CarriedStable(s, s', c.cap.name, pc.obj, c.seen); }
  }

  // ----- steps ---------------------------------------------------------------------------

  /** Thread `u` is not the one that moves. */
  ghost predicate Aside(s: State, s': State, u: Tid)
    requires u < |s.calls| == |s.clients|
  {
    |s'.calls| == |s.calls| && |s'.clients| == |s.clients| && s'.calls[u] == s.calls[u] &&
    (s'.clients[u] == s.clients[u] || exists id: Id :: s'.clients[u] == Notified(s.clients[u], id))
  }

  lemma AsideSet(w: World, s: State, t: Tid, ch: Choice, u: Tid)
    requires SetEnabled(w, s, t, ch) && u < |s.calls| == |s.clients| && u != t
    ensures Aside(s, SetStep(w, s, t, ch), u)
  {}

  lemma AsideCall(w: World, s: State, st: Step, u: Tid)
    requires Enabled(w, s, st) && u < |s.calls| == |s.clients|
    requires st.Unseal? || st.FindIt? || st.Lock? || st.GetIt? || st.RegisterIt?
    requires u != st.t
    ensures Aside(s, Apply(w, s, st), u)
  {}

  lemma AsideClient(w: World, s: State, st: Step, u: Tid)
    requires Inv(w, s) && Enabled(w, s, st) && u < |s.calls| && (st.PlainIt? || st.LoopIt? || st.StatusIt?)
    requires u != st.t
    ensures Aside(s, Apply(w, s, st), u)
  {
    ClientGrows(w, s, st);
  }

  lemma StepAside(w: World, s: State, st: Step, u: Tid)
    requires Inv(w, s) && Enabled(w, s, st) && u < |s.calls|
    requires (st.Tick? || st.Reclaim?) || u != st.t
    ensures Aside(s, Apply(w, s, st), u)
  {
    match st
    case Tick(_) =>
    case Reclaim(_) =>
    case SetIt(t, ch) => AsideSet(w, s, t, ch, u);
    case PlainIt(_, _) => AsideClient(w, s, st, u);
    case LoopIt(_, _) => AsideClient(w, s, st, u);
    case StatusIt(_, _) => AsideClient(w, s, st, u);
    case _ => AsideCall(w, s, st, u);
  }

  predicate Sized(s: State, s': State) {
    |s.calls| == |s.clients| == |s'.calls| == |s'.clients|
  }

  /** A thread's own broker step: its client does not move, and what it reads is current. */
  lemma OwnCall(w: World, s: State, st: Step, s': State)
    requires Inv(w, s) && Adopted(s) && Enabled(w, s, st) && s' == Apply(w, s, st) && Names(s') && Grows(s, s')
    requires Sized(s, s') && (st.Unseal? || st.FindIt? || st.Lock? || st.GetIt? || st.RegisterIt?)
    ensures HoldsOk(s', s'.clients[st.t], s'.calls[st.t])
  {
    var u := st.t;
    assert s'.clients == s.clients;
    assert HoldsOk(s, s.clients[u], s.calls[u]);
    HoldsStable(s, s', s.clients[u], s.calls[u], 0);
    if s.clients[u].Provider? && s.clients[u].spc.Fetch? {
      assert ClientOk(w, s, u) && ThreadOk(w, s, u);
      if st.GetIt? { ReadLater(w, s, u, s'); } else { CallLater(w, s, st, s'); }
    }
  }

  lemma ReadLater(w: World, s: State, u: Tid, s': State)
    requires BrokerInv(w, s) && GetEnabled(s, u) && s' == GetStep(s, u) && Sized(s, s')
    requires s.clients[u].Provider? && TakeOk(s, s.clients[u], s.calls[u]) && s.clients[u].spc.Fetch?
    requires Placed(s, u) && s.calls[u].op == Get(s.clients[u].cap)
    ensures Later(s'.calls[u], s.clients[u].seen)
  {
    ValuesAt(s, s.calls[u].id);
  }

  lemma CallLater(w: World, s: State, st: Step, s': State)
    requires Enabled(w, s, st) && s' == Apply(w, s, st) && Sized(s, s')
    requires (st.Unseal? || st.FindIt? || st.Lock? || st.RegisterIt?) && s.clients[st.t].Provider?
    ensures Later(s'.calls[st.t], s.clients[st.t].seen)
  {}

  /** Only a thread outside both loops calls set_config. */
  lemma OwnSet(w: World, s: State, t: Tid, ch: Choice, s': State)
    requires Inv(w, s) && SetEnabled(w, s, t, ch) && s' == SetStep(w, s, t, ch) && Sized(s, s')
    ensures s.clients[t].Plain? && s'.clients[t] == s.clients[t]
  {
    assert ClientOk(w, s, t) && s.clients[t].Plain?;
  }

  lemma OwnLoop(w: World, s: State, t: Tid, ch: Choice, s': State)
    requires Inv(w, s) && Adopted(s) && LoopEnabled(s, t, ch) && s' == LoopStep(s, t, ch)
    requires Names(s') && Grows(s, s') && Sized(s, s')
    ensures HoldsOk(s', s'.clients[t], s'.calls[t])
  {
    var watch, pc := s.clients[t].watch, s.clients[t].lpc;
    assert HoldsOk(s, s.clients[t], s.calls[t]) && ClientOk(w, s, t);
    HoldsStable(s, s', s.clients[t], s.calls[t], 0);
    SameWatches(s, t, ch, s');
    forall i | 0 <= i < |watch| ensures KeepOk(s', s'.clients[t].watch[i], InHandler(s'.clients[t].lpc, i)) {
      assert KeepOk(s', watch[i], InHandler(pc, i)) && WatchOk(w, s, watch[i]);
      if pc.Swap? && pc.i == i {
        SnapshotCarried(s, watch[i].futex.value, watch[i].version, watch[i].seen, pc.obj);
        CarriedStable(s, s', watch[i].cap.name, pc.obj, watch[i].seen);
      }
      OneWatch(s, t, ch, s', i);
    }
  }

  lemma SameWatches(s: State, t: Tid, ch: Choice, s': State)
    requires LoopEnabled(s, t, ch) && s' == LoopStep(s, t, ch) && Sized(s, s')
    ensures s'.clients[t].Loop? && |s'.clients[t].watch| == |s.clients[t].watch|
  {}

  predicate Turn(s: State, t: Tid, ch: Choice, s': State, i: nat) {
    LoopEnabled(s, t, ch) && s' == LoopStep(s, t, ch) && Sized(s, s') &&
    s'.clients[t].Loop? && i < |s.clients[t].watch| == |s'.clients[t].watch| &&
    KeepOk(s', s.clients[t].watch[i], InHandler(s.clients[t].lpc, i))
  }

  lemma OneWatch(s: State, t: Tid, ch: Choice, s': State, i: nat)
    requires Turn(s, t, ch, s', i)
    requires s.clients[t].lpc.Swap? && s.clients[t].lpc.i == i ==>
      s.clients[t].watch[i].cap.Sealed? &&
      Carried(s', s.clients[t].watch[i].cap.name, s.clients[t].lpc.obj, s.clients[t].watch[i].seen)
    ensures KeepOk(s', s'.clients[t].watch[i], InHandler(s'.clients[t].lpc, i))
  {
    match s.clients[t].lpc
    case Await(_, _) => WatchRead(s, t, ch, s', i);
    case Ephemeral(_, _, _) => WatchRead(s, t, ch, s', i);
    case Handling(_, _, _) => WatchClaimed(s, t, ch, s', i);
    case Keeping(_, _, _) => WatchClaimed(s, t, ch, s', i);
    case Swap(_, _, _, _) =>
    case Release(_, _, _, _) => WatchReleased(s, t, ch, s', i);
    case Scan(_, _) => WatchIdle(s, t, ch, s', i);
    case Blocked(_) => WatchIdle(s, t, ch, s', i);
    case Exited =>
  }

  lemma WatchRead(s: State, t: Tid, ch: Choice, s': State, i: nat)
    requires Turn(s, t, ch, s', i) && (s.clients[t].lpc.Await? || s.clients[t].lpc.Ephemeral?)
    ensures KeepOk(s', s'.clients[t].watch[i], InHandler(s'.clients[t].lpc, i))
  {}

  lemma WatchClaimed(s: State, t: Tid, ch: Choice, s': State, i: nat)
    requires Turn(s, t, ch, s', i) && (s.clients[t].lpc.Handling? || s.clients[t].lpc.Keeping?)
    ensures KeepOk(s', s'.clients[t].watch[i], InHandler(s'.clients[t].lpc, i))
  {}

  lemma WatchReleased(s: State, t: Tid, ch: Choice, s': State, i: nat)
    requires Turn(s, t, ch, s', i) && s.clients[t].lpc.Release?
    ensures KeepOk(s', s'.clients[t].watch[i], InHandler(s'.clients[t].lpc, i))
  {}

  lemma WatchIdle(s: State, t: Tid, ch: Choice, s': State, i: nat)
    requires Turn(s, t, ch, s', i) && (s.clients[t].lpc.Scan? || s.clients[t].lpc.Blocked?)
    ensures KeepOk(s', s'.clients[t].watch[i], InHandler(s'.clients[t].lpc, i))
  {}

  lemma OwnStatus(w: World, s: State, t: Tid, ch: Choice, s': State)
    requires Inv(w, s) && Adopted(s) && StatusEnabled(s, t, ch) && s' == StatusStep(s, t, ch)
    requires Names(s') && Grows(s, s') && Sized(s, s')
    ensures HoldsOk(s', s'.clients[t], s'.calls[t])
  {
    assert HoldsOk(s, s.clients[t], s.calls[t]) && ClientOk(w, s, t) && ReplyOk(s, t);
    HoldsStable(s, s', s.clients[t], s.calls[t], 0);
    if s.clients[t].spc.Fetch? { FetchTakes(w, s, t, ch, s'); } else { OtherTakes(s, t, ch, s'); }
  }

  lemma OtherTakes(s: State, t: Tid, ch: Choice, s': State)
    requires StatusEnabled(s, t, ch) && s' == StatusStep(s, t, ch) && Sized(s, s') && !s.clients[t].spc.Fetch?
    requires TakeOk(s', s.clients[t], s.calls[t])
    requires s.clients[t].cap.Sealed? || s.clients[t].seen == 0
    ensures s'.clients[t].Provider? && TakeOk(s', s'.clients[t], s'.calls[t])
  {}

  /** A version that differs belongs to a later value. */
  lemma FetchTakes(w: World, s: State, t: Tid, ch: Choice, s': State)
    requires Names(s) && StatusEnabled(s, t, ch) && s' == StatusStep(s, t, ch) && Sized(s, s')
    requires ProviderOk(w, s, t) && ReplyOk(s, t) && s.clients[t].spc.Fetch?
    requires TakeOk(s, s.clients[t], s.calls[t]) && TakeOk(s', s.clients[t], s.calls[t])
    requires Names(s') && Grows(s, s')
    ensures s'.clients[t].Provider? && TakeOk(s', s'.clients[t], s'.calls[t])
  {
    var r := s.calls[t].reply;
    if r.Found? && r.data.Some? && r.version != s.clients[t].version {
      SnapshotCarried(s, r.id, r.version, r.count, r.data.value);
      CarriedStable(s, s', s.clients[t].cap.name, r.data.value, r.count);
    }
  }

  lemma OwnStep(w: World, s: State, st: Step, s': State)
    requires Inv(w, s) && Adopted(s) && Enabled(w, s, st) && s' == Apply(w, s, st) && Names(s') && Grows(s, s')
    requires !st.Tick? && !st.Reclaim? && st.t < |s.calls| && Sized(s, s')
    ensures HoldsOk(s', s'.clients[st.t], s'.calls[st.t])
  {
    match st
    case SetIt(t, ch) => OwnSet(w, s, t, ch, s');
    case LoopIt(t, ch) => OwnLoop(w, s, t, ch, s');
    case StatusIt(t, ch) => OwnStatus(w, s, t, ch, s');
    case PlainIt(t, ch) =>
    case Unseal(_) => OwnCall(w, s, st, s');
    case FindIt(_, _) => OwnCall(w, s, st, s');
    case Lock(_) => OwnCall(w, s, st, s');
    case GetIt(_) => OwnCall(w, s, st, s');
    case RegisterIt(_) => OwnCall(w, s, st, s');
  }

  lemma NextAdopted(w: World, s: State, s': State)
    requires Inv(w, s) && Inv(w, s') && Adopted(s) && Next(w, s, s') && Grows(s, s')
    ensures Adopted(s')
  {
    var st :| Enabled(w, s, st) && s' == Apply(w, s, st);
    forall u | 0 <= u < |s'.clients| ensures HoldsOk(s', s'.clients[u], s'.calls[u]) {
      StepHolds(w, s, st, s', u);
    }
  }

  lemma StepHolds(w: World, s: State, st: Step, s': State, u: Tid)
    requires Inv(w, s) && Adopted(s) && Enabled(w, s, st) && s' == Apply(w, s, st)
    requires Inv(w, s') && Grows(s, s') && u < |s'.clients|
    ensures HoldsOk(s', s'.clients[u], s'.calls[u])
  {
    assert |s'.calls| == |s.calls| by { StepSizes(w, s, st, s'); }
    if !st.Tick? && !st.Reclaim? && st.t == u {
      OwnStep(w, s, st, s');
    } else {
      StepAside(w, s, st, u);
      assert HoldsOk(s, s.clients[u], s.calls[u]);
      var id: Id := if s'.clients[u] == s.clients[u] then 0
                    else var x: Id :| s'.clients[u] == Notified(s.clients[u], x); x;
      HoldsStable(s, s', s.clients[u], s.calls[u], id);
    }
  }

  lemma StepSizes(w: World, s: State, st: Step, s': State)
    requires Enabled(w, s, st) && s' == Apply(w, s, st)
    ensures |s'.calls| == |s.calls|
  {
    match st
    case SetIt(t, ch) => SetSize(w, s, t, ch, s');
    case LoopIt(t, ch) => LoopSize(s, t, ch, s');
    case StatusIt(t, ch) => StatusSize(s, t, ch, s');
    case _ => OtherSize(w, s, st, s');
  }

  lemma OtherSize(w: World, s: State, st: Step, s': State)
    requires Enabled(w, s, st) && s' == Apply(w, s, st) && !st.SetIt? && !st.LoopIt? && !st.StatusIt?
    ensures |s'.calls| == |s.calls|
  {}

  lemma SetSize(w: World, s: State, t: Tid, ch: Choice, s': State)
    requires SetEnabled(w, s, t, ch) && s' == SetStep(w, s, t, ch)
    ensures |s'.calls| == |s.calls|
  {}

  lemma LoopSize(s: State, t: Tid, ch: Choice, s': State)
    requires LoopEnabled(s, t, ch) && s' == LoopStep(s, t, ch)
    ensures |s'.calls| == |s.calls|
  {}

  lemma StatusSize(s: State, t: Tid, ch: Choice, s': State)
    requires StatusEnabled(s, t, ch) && s' == StatusStep(s, t, ch)
    ensures |s'.calls| == |s.calls|
  {}

  lemma {:induction false} RunAdopted(w: World, tr: seq<State>, k: nat)
    requires Run(w, tr) && k < |tr|
    ensures Adopted(tr[k])
  {
    if k > 0 {
      RunAdopted(w, tr, k - 1);
      RunInv(w, tr, k - 1);
      RunInv(w, tr, k);
      StepGrows(w, tr, k);
      NextAdopted(w, tr[k - 1], tr[k]);
    }
  }

  // ----- what update_status takes up, and when -------------------------------------------

  /** In every state of every run: the kept configuration is value number `taken`; between
      calls, that is the value whose version was recorded last if and only if the claim made
      for that version was granted. */
  lemma TakenExactly(w: World, tr: seq<State>, k: nat, t: Tid)
    requires Run(w, tr) && k < |tr| && t < |tr[k].clients| && tr[k].clients[t].Provider?
    ensures var s, c := tr[k], tr[k].clients[t];
      c.version == c.seen % U32 && c.taken <= c.seen && (c.config.Some? <==> c.taken > 0) &&
      (c.config.Some? ==> c.cap.Sealed? && Carried(s, c.cap.name, c.config.value, c.taken)) &&
      (c.seen > 0 ==> c.cap.Sealed? && c.seen <= |Values(s, c.cap.name)|) &&
      (c.spc.Rest? ==> (c.taken == c.seen <==> !c.refused))
  {
    RunInv(w, tr, k);
    RunAdopted(w, tr, k);
    assert HoldsOk(tr[k], tr[k].clients[t], tr[k].calls[t]) && ClientOk(w, tr[k], t);
  }

  /** get_config has answered with a version other than the recorded one. */
  predicate Noticed(s: State, t: Tid) {
    t < |s.calls| == |s.clients| && s.clients[t].Provider? && s.clients[t].spc.Fetch? &&
    s.calls[t].Returned? && s.calls[t].reply.Found? && s.calls[t].reply.count > 0 &&
    s.calls[t].reply.count % U32 != s.clients[t].seen % U32
  }

  predicate Watching(c: Client) { c.Provider? && (c.spc.Rest? || c.spc.Fetch?) }

  /** Nothing but the program counter differs, and no new version is being taken up. */
  predicate Unmoved(c: Client, c': Client) { Watching(c) && Watching(c') && c' == c.(spc := c'.spc) }

  /** An answer is taken further if and only if its count differs, modulo 2^32, from the
      recorded one (0 at the start); otherwise the call ends and nothing has changed. */
  lemma NoticedExactly(w: World, tr: seq<State>, k: nat, t: Tid, ch: Choice)
    requires Run(w, tr) && k < |tr| && StatusEnabled(tr[k], t, ch) && tr[k].clients[t].spc.Fetch?
    ensures var s, c, c' := tr[k], tr[k].clients[t], StatusStep(tr[k], t, ch).clients[t];
      if Noticed(s, t) then
        s.calls[t].reply.data.Some? &&
        c' == c.(version := s.calls[t].reply.version, seen := s.calls[t].reply.count,
                 spc := Secure(s.calls[t].reply.data.value))
      else c' == c.(spc := Rest)
  {
    RunInv(w, tr, k);
    assert ClientOk(w, tr[k], t) && ReplyOk(tr[k], t);
  }

  /** A thread's own step inside the broker leaves its client alone. */
  lemma OwnStill(w: World, s: State, st: Step, s': State)
    requires Inv(w, s) && Enabled(w, s, st) && s' == Apply(w, s, st) && Sized(s, s')
    requires st.Unseal? || st.FindIt? || st.Lock? || st.GetIt? || st.RegisterIt? || st.SetIt?
    ensures s'.clients[st.t] == s.clients[st.t]
  {
    if st.SetIt? { OwnSet(w, s, st.t, st.ch, s'); } else { CallStill(w, s, st, s'); }
  }

  lemma CallStill(w: World, s: State, st: Step, s': State)
    requires Enabled(w, s, st) && s' == Apply(w, s, st)
    requires st.Unseal? || st.FindIt? || st.Lock? || st.GetIt? || st.RegisterIt?
    ensures s'.clients == s.clients
  {}

  lemma StatusOverlooks(w: World, s: State, t: Tid, ch: Choice, s': State)
    requires StatusEnabled(s, t, ch) && s' == StatusStep(s, t, ch) && Sized(s, s') && ReplyOk(s, t)
    requires ProviderOk(w, s, t) && Watching(s.clients[t]) && !Noticed(s, t)
    ensures Unmoved(s.clients[t], s'.clients[t])
  {}

  lemma StepOverlooks(w: World, s: State, st: Step, s': State, t: Tid)
    requires Inv(w, s) && Enabled(w, s, st) && s' == Apply(w, s, st) && Sized(s, s')
    requires t < |s.clients| && Watching(s.clients[t]) && !Noticed(s, t)
    ensures Unmoved(s.clients[t], s'.clients[t])
  {
    if st.Tick? || st.Reclaim? || st.t != t {
      StepAside(w, s, st, t);
    } else if st.StatusIt? {
      assert ClientOk(w, s, t) && ReplyOk(s, t);
      StatusOverlooks(w, s, t, st.ch, s');
    } else if !st.PlainIt? && !st.LoopIt? {
      OwnStill(w, s, st, s');
    }
  }

  lemma NextOverlooks(w: World, s: State, s': State, t: Tid)
    requires Inv(w, s) && Inv(w, s') && Next(w, s, s')
    requires t < |s.clients| && Watching(s.clients[t]) && !Noticed(s, t)
    ensures t < |s'.clients| && Unmoved(s.clients[t], s'.clients[t])
  {
    var st :| Enabled(w, s, st) && s' == Apply(w, s, st);
    StepSizes(w, s, st, s');
    StepOverlooks(w, s, st, s', t);
  }

  /** So what was lost stays lost exactly until a version is read that differs: as long as
      that does not happen, pointer, version and history stay as they are. */
  lemma {:induction false} StaleUntil(w: World, tr: seq<State>, j: nat, k: nat, t: Tid)
    requires Run(w, tr) && j <= k < |tr| && t < |tr[j].clients| && Watching(tr[j].clients[t])
    requires forall i :: j <= i < k ==> !Noticed(tr[i], t)
    ensures t < |tr[k].clients| && Unmoved(tr[j].clients[t], tr[k].clients[t])
    decreases k
  {
    if j < k {
      StaleUntil(w, tr, j, k - 1, t);
      RunInv(w, tr, k - 1);
      RunInv(w, tr, k);
      NextOverlooks(w, tr[k - 1], tr[k], t);
    }
  }
}
