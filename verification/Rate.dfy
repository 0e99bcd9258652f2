/** The rate limit of set_config over whole runs, in terms of the attempts on record. */
module Rate {
  import opened Base
  import opened Machine
  import opened Invariant
  import opened Preservation
  import opened Clients
  import opened Runs

  /** No deadline computed so far can have wrapped: an interval has 32 bits. */
  predicate NoWrap(s: State) { s.now + U32 <= U64 }

  predicate Spaced(passes: seq<nat>, minTicks: nat) {
    forall k :: 0 < k < |passes| ==> passes[k - 1] + minTicks <= passes[k]
  }

  predicate Deadline(it: Item) {
    if it.passes == [] then it.nextUpdate == 0
    else it.parser && it.nextUpdate == (it.passes[|it.passes| - 1] + it.minTicks) % U64
  }

  predicate ItemRate(s: State, id: Id)
    requires id < |s.items|
  {
    var it := s.items[id];
    Deadline(it) && (it.passes != [] ==> it.passes[|it.passes| - 1] <= s.now) &&
    (NoWrap(s) ==> Spaced(it.passes, it.minTicks))
  }

  /** A setter's clock reading is not older than the last attempt that passed. */
  predicate ThreadRate(s: State, t: Tid)
    requires t < |s.calls|
  {
    var c := s.calls[t];
    c.Working? && c.pc.CheckRate? && c.id < |s.items| ==>
      c.pc.tick <= s.now &&
      var p := s.items[c.id].passes;
      p != [] ==> p[|p| - 1] <= c.pc.tick
  }

  predicate RateInv(s: State) {
    (forall id :: 0 <= id < |s.items| ==> ItemRate(s, id)) &&
    (forall t :: 0 <= t < |s.calls| ==> ThreadRate(s, t))
  }

  /** A step that neither passes a rate check nor reads the clock for one. */
  predicate Unrated(s: State, s': State) {
    |s.items| <= |s'.items| && |s'.calls| == |s.calls| && s.now <= s'.now &&
    (forall j :: 0 <= j < |s.items| ==> SameRate(s.items[j], s'.items[j])) &&
    (forall j :: |s.items| <= j < |s'.items| ==> s'.items[j] == NewItem(s'.items[j].name)) &&
    (forall t :: 0 <= t < |s.calls| ==>
      s'.calls[t] == s.calls[t] || !(s'.calls[t].Working? && s'.calls[t].pc.CheckRate?))
  }

  predicate SameRate(a: Item, b: Item) {
    b.passes == a.passes && b.nextUpdate == a.nextUpdate && (a.parser ==> b.parser && b.minTicks == a.minTicks)
  }

  lemma UnratedKeeps(w: World, s: State, s': State)
    requires BrokerInv(w, s) && RateInv(s) && Unrated(s, s')
    ensures RateInv(s')
  {
    forall id | 0 <= id < |s'.items| ensures ItemRate(s', id) {
      if id < |s.items| { assert SameRate(s.items[id], s'.items[id]) && ItemRate(s, id); }
    }
    forall t | 0 <= t < |s.calls| ensures ThreadRate(s', t) {
      assert ThreadRate(s, t) && ThreadOk(w, s, t);
    }
  }

  lemma CheckRateKeeps(w: World, s: State, t: Tid, ch: Choice)
    requires BrokerInv(w, s) && RateInv(s) && SetEnabled(w, s, t, ch) && s.calls[t].pc.CheckRate?
    ensures RateInv(SetStep(w, s, t, ch))
  {
    var s', id := SetStep(w, s, t, ch), s.calls[t].id;
    assert ThreadOk(w, s, t) && ItemOk(w, s, id) && ItemRate(s, id) && ThreadRate(s, t);
    assert ItemRate(s', id) by { PassKeeps(w, s, t, ch); }
    forall j | 0 <= j < |s.items| && j != id ensures ItemRate(s', j) { assert ItemRate(s, j); }
    forall u | 0 <= u < |s.calls| && u != t ensures ThreadRate(s', u) {
      assert ThreadOk(w, s, u) && ThreadRate(s, u);
    }
  }

  lemma PassKeeps(w: World, s: State, t: Tid, ch: Choice)
    requires BrokerInv(w, s) && RateInv(s) && SetEnabled(w, s, t, ch) && s.calls[t].pc.CheckRate?
    ensures ItemRate(SetStep(w, s, t, ch), s.calls[t].id)
  {
    var s', id, tick := SetStep(w, s, t, ch), s.calls[t].id, s.calls[t].pc.tick;
    var it := s.items[id];
    assert ThreadOk(w, s, t) && ItemOk(w, s, id) && ItemRate(s, id) && ThreadRate(s, t);
    if it.nextUpdate > 0 && tick < it.nextUpdate {
      assert s'.items[id] == it;
    } else {
      Passed(s, it, tick);
      assert s'.items[id] == it.(nextUpdate := (tick + it.minTicks) % U64, passes := it.passes + [tick]);
    }
  }

  /** An attempt let through is spaced from the one before it, unless the deadline wrapped. */
  lemma Passed(s: State, it: Item, tick: nat)
    requires Deadline(it) && it.minTicks < U32 && tick <= s.now && it.parser
    requires it.passes != [] ==> it.passes[|it.passes| - 1] <= tick
    requires NoWrap(s) ==> Spaced(it.passes, it.minTicks)
    requires !(it.nextUpdate > 0 && tick < it.nextUpdate)
    ensures var it' := it.(nextUpdate := (tick + it.minTicks) % U64, passes := it.passes + [tick]);
      Deadline(it') && it'.passes[|it'.passes| - 1] <= s.now && (NoWrap(s) ==> Spaced(it'.passes, it'.minTicks))
  {
    var p, p' := it.passes, it.passes + [tick];
    if NoWrap(s) {
      forall k | 0 < k < |p'| ensures p'[k - 1] + it.minTicks <= p'[k] {
        if k < |p| { assert p'[k - 1] == p[k - 1] && p'[k] == p[k]; }
      }
    }
  }

  lemma ReadTickKeeps(w: World, s: State, t: Tid, ch: Choice)
    requires BrokerInv(w, s) && RateInv(s) && SetEnabled(w, s, t, ch) && s.calls[t].pc.ReadTick?
    ensures RateInv(SetStep(w, s, t, ch))
  {
    var s' := SetStep(w, s, t, ch);
    assert ThreadOk(w, s, t) && ItemRate(s, s.calls[t].id);
    forall j | 0 <= j < |s.items| ensures ItemRate(s', j) { assert ItemRate(s, j); }
    forall u | 0 <= u < |s.calls| ensures ThreadRate(s', u) { assert ThreadRate(s, u); }
  }

  lemma SetRate(w: World, s: State, t: Tid, ch: Choice)
    requires BrokerInv(w, s) && RateInv(s) && SetEnabled(w, s, t, ch)
    ensures RateInv(SetStep(w, s, t, ch))
  {
    if s.calls[t].pc.CheckRate? {
      CheckRateKeeps(w, s, t, ch);
    } else if s.calls[t].pc.ReadTick? {
      ReadTickKeeps(w, s, t, ch);
    } else {
      SetUnrated(w, s, t, ch);
      UnratedKeeps(w, s, SetStep(w, s, t, ch));
    }
  }

  lemma SetUnrated(w: World, s: State, t: Tid, ch: Choice)
    requires SetEnabled(w, s, t, ch) && !s.calls[t].pc.CheckRate? && !s.calls[t].pc.ReadTick?
    ensures Unrated(s, SetStep(w, s, t, ch))
  {
    var pc := s.calls[t].pc;
    if pc.CheckParser? || pc.Allocate? || pc.Parsing? || pc.Discard? {
      SetUnratedEarly(w, s, t, ch, SetStep(w, s, t, ch));
    } else {
      SetUnratedLate(w, s, t, ch, SetStep(w, s, t, ch));
    }
  }

  lemma SetUnratedEarly(w: World, s: State, t: Tid, ch: Choice, s': State)
    requires SetEnabled(w, s, t, ch) && s' == SetStep(w, s, t, ch)
    requires var pc := s.calls[t].pc; pc.CheckParser? || pc.Allocate? || pc.Parsing? || pc.Discard?
    ensures Unrated(s, s')
  {}

  lemma SetUnratedLate(w: World, s: State, t: Tid, ch: Choice, s': State)
    requires SetEnabled(w, s, t, ch) && s' == SetStep(w, s, t, ch)
    requires var pc := s.calls[t].pc; pc.Store? || pc.Bump? || pc.Notify? || pc.FreeOld? || pc.Exit?
    ensures Unrated(s, s')
  {}

  /** Every step but those of set_config. */
  lemma OtherUnrated(w: World, s: State, st: Step)
    requires Inv(w, s) && Enabled(w, s, st) && !st.SetIt?
    ensures Unrated(s, Apply(w, s, st))
  {
    if st.PlainIt? || st.LoopIt? || st.StatusIt? {
      ClientUnrated(w, s, st);
    } else if st.Unseal? || st.FindIt? || st.RegisterIt? {
      CallUnrated(w, s, st);
    } else {
      PlainUnrated(w, s, st);
    }
  }

  lemma PlainUnrated(w: World, s: State, st: Step)
    requires Enabled(w, s, st) && (st.Tick? || st.Reclaim? || st.Lock? || st.GetIt?)
    ensures Unrated(s, Apply(w, s, st))
  {}

  lemma ClientUnrated(w: World, s: State, st: Step)
    requires Inv(w, s) && Enabled(w, s, st) && (st.PlainIt? || st.LoopIt? || st.StatusIt?)
    ensures Unrated(s, Apply(w, s, st))
  {
    ClientGrows(w, s, st);
  }

  lemma CallUnrated(w: World, s: State, st: Step)
    requires Inv(w, s) && Enabled(w, s, st) && (st.Unseal? || st.FindIt? || st.RegisterIt?)
    ensures Unrated(s, Apply(w, s, st))
  {
    var s' := Apply(w, s, st);
    CallOutside(w, s, st);
    forall j | 0 <= j < |s.items| ensures SameRate(s.items[j], s'.items[j]) {
      assert Same(s.items[j], s'.items[j]) && Settles(w, s.items[j], s'.items[j]);
    }
  }

  lemma NextRate(w: World, s: State, s': State)
    requires Inv(w, s) && RateInv(s) && Next(w, s, s')
    ensures RateInv(s')
  {
    var st :| Enabled(w, s, st) && s' == Apply(w, s, st);
    if st.SetIt? {
      SetRate(w, s, st.t, st.ch);
    } else {
      OtherUnrated(w, s, st);
      UnratedKeeps(w, s, s');
    }
  }

  lemma {:induction false} RunRate(w: World, tr: seq<State>, k: nat)
    requires Run(w, tr) && k < |tr|
    ensures RateInv(tr[k])
  {
    if k == 0 {
    } else {
      RunRate(w, tr, k - 1);
      RunInv(w, tr, k - 1);
      NextRate(w, tr[k - 1], tr[k]);
    }
  }

  // ----- the two promises --------------------------------------------------------

  lemma {:induction false} SpacedFar(passes: seq<nat>, minTicks: nat, i: nat, j: nat)
    requires Spaced(passes, minTicks) && i <= j < |passes|
    ensures passes[i] + (j - i) * minTicks <= passes[j]
    decreases j
  {
    if i < j {
      SpacedFar(passes, minTicks, i, j - 1);
      assert (j - i) * minTicks == (j - 1 - i) * minTicks + minTicks;
    }
  }

  /** If attempts i..j on one item got past the rate limit between ticks a and b, their
      number n = j - i + 1 satisfies (n - 1) * minTicks <= b - a, with the interval that
      was registered for the item. */
  lemma RecordSpaced(w: World, tr: seq<State>, k: nat, id: Id, i: nat, j: nat, a: nat, b: nat)
    requires Run(w, tr) && k < |tr| && NoWrap(tr[k]) && id < |tr[k].items|
    requires i <= j < |tr[k].items[id].passes|
    requires a <= tr[k].items[id].passes[i] && tr[k].items[id].passes[j] <= b
    ensures tr[k].items[id].name in w.tokens
    ensures (j - i) * w.tokens[tr[k].items[id].name].minTicks <= b - a
  {
    RunInv(w, tr, k);
    RunRate(w, tr, k);
    var it := tr[k].items[id];
    assert ItemOk(w, tr[k], id) && ItemRate(tr[k], id);
    SpacedFar(it.passes, it.minTicks, i, j);
  }

  /** An attempt is turned away exactly when it comes less than the registered interval
      after the last one that was let through, whatever became of that one. */
  lemma RejectedByRecord(w: World, tr: seq<State>, k: nat, t: Tid, ch: Choice)
    requires Run(w, tr) && k < |tr| && NoWrap(tr[k])
    requires SetEnabled(w, tr[k], t, ch) && tr[k].calls[t].pc.CheckRate?
    ensures var s, id := tr[k], tr[k].calls[t].id;
      var p := s.items[id].passes;
      s.items[id].name in w.tokens &&
      (SetStep(w, s, t, ch).calls[t].pc == Exit(EBUSY) <==>
       p != [] && s.calls[t].pc.tick < p[|p| - 1] + w.tokens[s.items[id].name].minTicks)
  {
    var s, id := tr[k], tr[k].calls[t].id;
    RunInv(w, tr, k);
    RunRate(w, tr, k);
    assert ThreadOk(w, s, t) && ItemOk(w, s, id) && ItemRate(s, id);
  }
}
