/** ConfigConsumer::run, turn by turn: which items are asked for, delivered and waited on. */
module Scans {
  import opened Base
  import opened Machine
  import opened Invariant
  import opened Clients
  import opened Runs
  import opened Adoption

  // ----- one scan of the list ----------------------------------------------------------

  predicate InScan(pc: LoopPc) {
    pc.Scan? || pc.Await? || pc.Ephemeral? || pc.Handling? || pc.Keeping? || pc.Swap? || pc.Release?
  }

  predicate AtEnd(c: Client) { c.Loop? && c.lpc.Scan? && c.lpc.i >= |c.watch| }

  /** The same list of capabilities, and the same events. */
  predicate SameScan(c: Client, c': Client) {
    c.Loop? && c'.Loop? && InScan(c.lpc) && InScan(c'.lpc) && c'.lpc.fired == c.lpc.fired &&
    |c'.watch| == |c.watch| && forall i :: 0 <= i < |c.watch| ==> c'.watch[i].cap == c.watch[i].cap
  }

  /** get_config has just been called for slot `i`. */
  predicate Asks(c: Client, call: Call, i: nat) {
    c.Loop? && c.lpc.Await? && c.lpc.i == i < |c.watch| && call == Called(Get(c.watch[i].cap))
  }

  /** One step of the thread in its scan: past a slot without event, into one with an event,
      or on with the one it is at. */
  predicate Progresses(c: Client, c': Client, call': Call) {
    SameScan(c, c') && c.lpc.i < |c.watch| == |c.lpc.fired| &&
    if c.lpc.Scan? then
      if c.lpc.fired[c.lpc.i] then Asks(c', call', c.lpc.i) else c'.lpc == Scan(c.lpc.i + 1, c.lpc.fired)
    else
      (!c'.lpc.Scan? && !c'.lpc.Await? && c'.lpc.i == c.lpc.i) || c'.lpc == Scan(c.lpc.i + 1, c.lpc.fired)
  }

  predicate Turns(s: State, t: Tid, ch: Choice, s': State) {
    LoopEnabled(s, t, ch) && s' == LoopStep(s, t, ch) && Sized(s, s') && InScan(s.clients[t].lpc) &&
    !AtEnd(s.clients[t]) && s.clients[t].lpc.i < |s.clients[t].watch| == |s.clients[t].lpc.fired|
  }

  lemma LoopProgresses(s: State, t: Tid, ch: Choice, s': State)
    requires Turns(s, t, ch, s')
    ensures Progresses(s.clients[t], s'.clients[t], s'.calls[t])
  {
    var pc := s.clients[t].lpc;
    if pc.Scan? {
      ScanProgresses(s, t, ch, s');
    } else if pc.Await? || pc.Ephemeral? || pc.Handling? {
      ReadProgresses(s, t, ch, s');
    } else {
      KeepProgresses(s, t, ch, s');
    }
  }

  lemma ScanProgresses(s: State, t: Tid, ch: Choice, s': State)
    requires Turns(s, t, ch, s') && s.clients[t].lpc.Scan?
    ensures Progresses(s.clients[t], s'.clients[t], s'.calls[t])
  {}

  lemma ReadProgresses(s: State, t: Tid, ch: Choice, s': State)
    requires Turns(s, t, ch, s')
    requires s.clients[t].lpc.Await? || s.clients[t].lpc.Ephemeral? || s.clients[t].lpc.Handling?
    ensures Progresses(s.clients[t], s'.clients[t], s'.calls[t])
  {}

  lemma KeepProgresses(s: State, t: Tid, ch: Choice, s': State)
    requires Turns(s, t, ch, s')
    requires s.clients[t].lpc.Keeping? || s.clients[t].lpc.Swap? || s.clients[t].lpc.Release?
    ensures Progresses(s.clients[t], s'.clients[t], s'.calls[t])
  {}

  /** Any step of anybody: the scan of `t` stays where it is or progresses. */
  lemma StepProgresses(w: World, s: State, st: Step, s': State, t: Tid)
    requires Inv(w, s) && Enabled(w, s, st) && s' == Apply(w, s, st) && Sized(s, s') && t < |s.clients|
    requires s.clients[t].Loop? && InScan(s.clients[t].lpc) && !AtEnd(s.clients[t])
    ensures s'.clients[t] == s.clients[t] || Progresses(s.clients[t], s'.clients[t], s'.calls[t])
  {
    if st.Tick? || st.Reclaim? || st.t != t {
      StepAside(w, s, st, t);
    } else if st.LoopIt? {
      assert ClientOk(w, s, t);
      LoopProgresses(s, t, st.ch, s');
    } else if !st.PlainIt? && !st.StatusIt? {
      OwnStill(w, s, st, s');
    }
  }

  lemma NextProgresses(w: World, s: State, s': State, t: Tid)
    requires Inv(w, s) && Inv(w, s') && Next(w, s, s') && t < |s.clients|
    requires s.clients[t].Loop? && InScan(s.clients[t].lpc) && !AtEnd(s.clients[t])
    ensures t < |s'.clients|
    ensures s'.clients[t] == s.clients[t] || Progresses(s.clients[t], s'.clients[t], s'.calls[t])
  {
    var st :| Enabled(w, s, st) && s' == Apply(w, s, st);
    StepSizes(w, s, st, s');
    StepProgresses(w, s, st, s', t);
  }

  // ----- a whole scan --------------------------------------------------------------------

  predicate Asked(s: State, t: Tid, i: nat) {
    t < |s.clients| && t < |s.calls| && Asks(s.clients[t], s.calls[t], i)
  }

  predicate Visited(tr: seq<State>, j: nat, k: nat, t: Tid, i: nat)
    requires j <= k < |tr|
  {
    exists m :: j <= m <= k && Asked(tr[m], t, i)
  }

  /** Slots behind the scan: those asked for, if their event had fired. */
  function Done(pc: LoopPc): nat
    requires InScan(pc)
  {
    if pc.Scan? then pc.i else pc.i + 1
  }

  predicate Scanned(tr: seq<State>, j: nat, k: nat, t: Tid, i: nat)
    requires j <= k < |tr| && t < |tr[k].clients|
  {
    var c := tr[k].clients[t];
    c.Loop? && InScan(c.lpc) && i < |c.watch| == |c.lpc.fired| &&
    (c.lpc.Scan? || (c.lpc.i < |c.watch| && c.lpc.fired[c.lpc.i])) &&
    (Done(c.lpc) > i ==> (Visited(tr, j, k, t, i) <==> c.lpc.fired[i])) &&
    (Done(c.lpc) <= i ==> !Visited(tr, j, k, t, i))
  }

  lemma VisitedOn(tr: seq<State>, j: nat, k: nat, t: Tid, i: nat)
    requires j < k < |tr|
    ensures Visited(tr, j, k, t, i) <==> Visited(tr, j, k - 1, t, i) || Asked(tr[k], t, i)
  {
    if m :| j <= m <= k - 1 && Asked(tr[m], t, i) { assert j <= m <= k; }
    if Asked(tr[k], t, i) { assert j <= k <= k; }
  }

  lemma ScannedOn(tr: seq<State>, j: nat, k: nat, t: Tid, i: nat)
    requires j < k < |tr| && t < |tr[k - 1].clients| && t < |tr[k].clients| && t < |tr[k].calls|
    requires Scanned(tr, j, k - 1, t, i) && !AtEnd(tr[k - 1].clients[t])
    requires tr[k].clients[t] == tr[k - 1].clients[t] ||
      Progresses(tr[k - 1].clients[t], tr[k].clients[t], tr[k].calls[t])
    ensures Scanned(tr, j, k, t, i) && SameScan(tr[k - 1].clients[t], tr[k].clients[t])
  {
    VisitedOn(tr, j, k, t, i);
  }

  lemma {:induction false} ScanUpTo(w: World, tr: seq<State>, j: nat, k: nat, t: Tid, i: nat)
    requires Run(w, tr) && j <= k < |tr| && t < |tr[j].clients| && tr[j].clients[t].Loop?
    requires tr[j].clients[t].lpc.Scan? && tr[j].clients[t].lpc.i == 0 && i < |tr[j].clients[t].watch|
    requires forall m :: j <= m < k && t < |tr[m].clients| ==> !AtEnd(tr[m].clients[t])
    ensures t < |tr[k].clients| && Scanned(tr, j, k, t, i) && SameScan(tr[j].clients[t], tr[k].clients[t])
    decreases k
  {
    RunInv(w, tr, k);
    if j == k {
      assert ClientOk(w, tr[k], t);
    } else {
      ScanUpTo(w, tr, j, k - 1, t, i);
      RunInv(w, tr, k - 1);
      assert !AtEnd(tr[k - 1].clients[t]);
      NextProgresses(w, tr[k - 1], tr[k], t);
      ScannedOn(tr, j, k, t, i);
    }
  }

  /** From the start of a scan to its end: get_config is called for exactly the items whose
      event has fired. */
  lemma ScanAsksExactly(w: World, tr: seq<State>, j: nat, k: nat, t: Tid, fired: seq<bool>, i: nat)
    requires Run(w, tr) && j <= k < |tr| && t < |tr[j].clients| && t < |tr[k].clients|
    requires tr[j].clients[t].Loop? && tr[j].clients[t].lpc == Scan(0, fired) && i < |tr[j].clients[t].watch|
    requires AtEnd(tr[k].clients[t])
    requires forall m :: j <= m < k && t < |tr[m].clients| ==> !AtEnd(tr[m].clients[t])
    ensures |fired| == |tr[j].clients[t].watch| && SameScan(tr[j].clients[t], tr[k].clients[t])
    ensures fired[i] <==> Visited(tr, j, k, t, i)
  {
    ScanUpTo(w, tr, j, k, t, i);
  }

  // ----- deliveries ----------------------------------------------------------------------

  /** A handler is being called with what slot `i` was last read as, value number `d`. */
  predicate Delivers(s: State, t: Tid, i: nat, d: nat) {
    t < |s.clients| && s.clients[t].Loop? && s.clients[t].lpc.Handling? &&
    s.clients[t].lpc.i == i < |s.clients[t].watch| &&
    s.clients[t].watch[i].seen == d
  }

  lemma LoopDelivers(s: State, t: Tid, ch: Choice, s': State, i: nat)
    requires LoopEnabled(s, t, ch) && s' == LoopStep(s, t, ch) && Sized(s, s')
    requires s'.clients[t].Loop? && i < |s.clients[t].watch| == |s'.clients[t].watch|
    requires s'.clients[t].watch[i].delivered != s.clients[t].watch[i].delivered
    ensures Delivers(s', t, i, s'.clients[t].watch[i].delivered)
  {
    var pc := s.clients[t].lpc;
    if pc.Ephemeral? { } else if pc.Await? || pc.Scan? { ReadUndelivered(s, t, ch, s', i); }
    else { OtherUndelivered(s, t, ch, s', i); }
  }

  lemma ReadUndelivered(s: State, t: Tid, ch: Choice, s': State, i: nat)
    requires LoopEnabled(s, t, ch) && s' == LoopStep(s, t, ch) && Sized(s, s')
    requires s'.clients[t].Loop? && i < |s.clients[t].watch| == |s'.clients[t].watch|
    requires s.clients[t].lpc.Await? || s.clients[t].lpc.Scan?
    ensures s'.clients[t].watch[i].delivered == s.clients[t].watch[i].delivered
  {}

  lemma OtherUndelivered(s: State, t: Tid, ch: Choice, s': State, i: nat)
    requires LoopEnabled(s, t, ch) && s' == LoopStep(s, t, ch) && Sized(s, s')
    requires s'.clients[t].Loop? && i < |s.clients[t].watch| == |s'.clients[t].watch|
    requires !s.clients[t].lpc.Await? && !s.clients[t].lpc.Scan? && !s.clients[t].lpc.Ephemeral?
    ensures s'.clients[t].watch[i].delivered == s.clients[t].watch[i].delivered
  {}

  predicate DeliversOn(s: State, s': State, t: Tid, i: nat) {
    t < |s.clients| && t < |s'.clients| && s'.clients[t].Loop? && i < |s'.clients[t].watch| &&
    s.clients[t].Loop? && |s.clients[t].watch| == |s'.clients[t].watch| &&
    (s'.clients[t].watch[i].delivered == s.clients[t].watch[i].delivered ||
     Delivers(s', t, i, s'.clients[t].watch[i].delivered))
  }

  lemma NextDelivers(w: World, s: State, s': State, t: Tid, i: nat)
    requires Inv(w, s) && Inv(w, s') && Next(w, s, s') && t < |s'.clients| && s'.clients[t].Loop?
    requires i < |s'.clients[t].watch|
    ensures DeliversOn(s, s', t, i)
  {
    var st :| Enabled(w, s, st) && s' == Apply(w, s, st);
    StepSizes(w, s, st, s');
    StepDelivers(w, s, st, s', t, i);
  }

  lemma StepDelivers(w: World, s: State, st: Step, s': State, t: Tid, i: nat)
    requires Inv(w, s) && Enabled(w, s, st) && s' == Apply(w, s, st) && Sized(s, s') && t < |s.clients|
    requires s'.clients[t].Loop? && i < |s'.clients[t].watch|
    ensures DeliversOn(s, s', t, i)
  {
    if st.Tick? || st.Reclaim? || st.t != t {
      StepAside(w, s, st, t);
    } else if st.LoopIt? {
      SameWatches(s, t, st.ch, s');
      if s'.clients[t].watch[i].delivered != s.clients[t].watch[i].delivered { LoopDelivers(s, t, st.ch, s', i); }
    } else if !st.PlainIt? && !st.StatusIt? {
      OwnStill(w, s, st, s');
    }
  }

  /** Whatever is counted as delivered was: a handler of that slot was called with it. */
  lemma {:induction false} DeliveredWasHandled(w: World, tr: seq<State>, k: nat, t: Tid, i: nat) returns (m: nat)
    requires Run(w, tr) && k < |tr| && t < |tr[k].clients| && tr[k].clients[t].Loop?
    requires i < |tr[k].clients[t].watch| && tr[k].clients[t].watch[i].delivered > 0
    ensures m <= k && Delivers(tr[m], t, i, tr[k].clients[t].watch[i].delivered)
    decreases k
  {
    if k == 0 {
      FreshAtStart(w, tr, t, i);
      assert false;
    } else {
      RunInv(w, tr, k - 1);
      RunInv(w, tr, k);
      NextDelivers(w, tr[k - 1], tr[k], t, i);
      if tr[k].clients[t].watch[i].delivered == tr[k - 1].clients[t].watch[i].delivered {
        m := DeliveredWasHandled(w, tr, k - 1, t, i);
      } else {
        m := k;
      }
    }
  }

  lemma FreshAtStart(w: World, tr: seq<State>, t: Tid, i: nat)
    requires Run(w, tr) && t < |tr[0].clients| && tr[0].clients[t].Loop? && i < |tr[0].clients[t].watch|
    ensures tr[0].clients[t].watch[i].delivered == 0
  {
    assert Fresh(tr[0].clients[t]);
  }

  // ----- the wait ------------------------------------------------------------------------

  /** At its end a scan that has a futex for every item blocks exactly when no version has
      moved; otherwise the next scan is for exactly the items whose version has. */
  lemma WaitsExactly(s: State, t: Tid, ch: Choice, s': State)
    requires LoopEnabled(s, t, ch) && s' == LoopStep(s, t, ch) && AtEnd(s.clients[t])
    requires Futexes(s, s.clients[t].watch)
    ensures t < |s'.clients| && s'.clients[t].Loop? && s'.clients[t].watch == s.clients[t].watch
    ensures s'.clients[t].lpc == Blocked({}) <==>
      forall i :: 0 <= i < |s.clients[t].watch| ==> !HasMoved(s, s.clients[t].watch[i])
    ensures s'.clients[t].lpc != Blocked({}) ==> Starts(s'.clients[t])
    ensures s'.clients[t].lpc != Blocked({}) ==>
      forall i :: 0 <= i < |s.clients[t].watch| ==>
        (s'.clients[t].lpc.fired[i] <==> HasMoved(s, s.clients[t].watch[i]))
  {
    var watch := s.clients[t].watch;
    var moved := Moved(s, watch);
    assert forall i :: 0 <= i < |watch| ==> (moved[i] <==> HasMoved(s, watch[i]));
    if true !in moved {
      forall i | 0 <= i < |watch| ensures !HasMoved(s, watch[i]) { assert moved[i] in moved; }
    }
  }

  predicate HasMoved(s: State, wt: Watch) {
    wt.futex.Some? && wt.futex.value < |s.items| && s.items[wt.futex.value].version != wt.version
  }

  predicate Starts(c: Client) { c.Loop? && c.lpc.Scan? && c.lpc.i == 0 && |c.lpc.fired| == |c.watch| }

  /** A consumer that leaves its wait scans for exactly the items it was woken for: none after
      a timeout. */
  lemma WakesExactly(s: State, t: Tid, ch: Choice, s': State)
    requires LoopEnabled(s, t, ch) && s' == LoopStep(s, t, ch) && s.clients[t].lpc.Blocked?
    ensures t < |s'.clients| && s'.clients[t].Loop? && s'.clients[t].watch == s.clients[t].watch
    ensures s'.clients[t].lpc.Exited? ==> s.clients[t].lpc.wakes == {}
    ensures !s'.clients[t].lpc.Exited? ==> Starts(s'.clients[t])
    ensures !s'.clients[t].lpc.Exited? ==>
      forall i :: 0 <= i < |s.clients[t].watch| ==>
        (s'.clients[t].lpc.fired[i] <==>
         exists id :: id in s.clients[t].lpc.wakes && s.clients[t].watch[i].futex == Some(id))
  {}

  /** notify_all wakes exactly those that wait on that item, for that item. */
  lemma NotifiesExactly(w: World, s: State, t: Tid, ch: Choice, s': State, u: Tid)
    requires SetEnabled(w, s, t, ch) && s.calls[t].pc.Notify? && s' == SetStep(w, s, t, ch) && u < |s.clients|
    ensures |s'.clients| == |s.clients|
    ensures var c, c', id := s.clients[u], s'.clients[u], s.calls[t].id;
      if c.Loop? && c.lpc.Blocked? && exists i :: 0 <= i < |c.watch| && c.watch[i].futex == Some(id)
      then c' == Loop(c.watch, Blocked(c.lpc.wakes + {id})) else c' == c
  {}
}
