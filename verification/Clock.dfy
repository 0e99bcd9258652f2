/** The rate limit against the clock itself: when attempts read it and when they are let through. */
module Clock {
  import opened Base
  import opened Machine
  import opened Invariant
  import opened Clients
  import opened Runs
  import opened Adoption
  import opened Rate
  import opened Causes

  // ----- letting an attempt through -----------------------------------------------------

  /** Between these two states thread `t` gets past the rate limit of item `id`. */
  predicate Admits(s: State, s': State, t: Tid, id: Id) {
    t < |s.calls| && t < |s'.calls| && Setting(s.calls[t]) && s.calls[t].pc.CheckRate? && s.calls[t].id == id &&
    s'.calls[t] == Working(s.calls[t].op, id, Allocate)
  }

  predicate Admitted(s: State, s': State, id: Id) { exists t :: 0 <= t < |s.calls| && Admits(s, s', t, id) }

  lemma UnratedPasses(s: State, s': State, id: Id)
    requires Unrated(s, s') && id < |s.items|
    ensures s'.items[id].passes == s.items[id].passes
  {
    assert SameRate(s.items[id], s'.items[id]);
  }

  lemma StepPasses(w: World, s: State, st: Step, s': State, id: Id)
    requires Inv(w, s) && Enabled(w, s, st) && s' == Apply(w, s, st) && id < |s.items| <= |s'.items|
    requires s'.items[id].passes != s.items[id].passes
    ensures st.SetIt? && st.t < |s.calls| && Admits(s, s', st.t, id)
    ensures s'.items[id].passes == s.items[id].passes + [s.calls[st.t].pc.tick]
  {
    if !st.SetIt? {
      OtherUnrated(w, s, st);
      UnratedPasses(s, s', id);
    } else {
      SetPasses(w, s, st.t, st.ch, s', id);
    }
  }

  lemma SetPasses(w: World, s: State, t: Tid, ch: Choice, s': State, id: Id)
    requires BrokerInv(w, s) && SetEnabled(w, s, t, ch) && s' == SetStep(w, s, t, ch) && id < |s.items| <= |s'.items|
    requires s'.items[id].passes != s.items[id].passes
    ensures Admits(s, s', t, id) && s'.items[id].passes == s.items[id].passes + [s.calls[t].pc.tick]
  {
    var pc := s.calls[t].pc;
    assert ThreadOk(w, s, t);
    if !pc.CheckRate? && !pc.ReadTick? {
      SetUnrated(w, s, t, ch);
      UnratedPasses(s, s', id);
    }
  }

  lemma StepAdmits(w: World, s: State, st: Step, s': State, t: Tid, id: Id)
    requires Inv(w, s) && Enabled(w, s, st) && s' == Apply(w, s, st) && |s'.calls| == |s.calls|
    requires Admits(s, s', t, id)
    ensures id < |s.items| <= |s'.items| && s'.items[id].passes == s.items[id].passes + [s.calls[t].pc.tick]
  {
    OwnTransition(w, s, st, s', t);
    CheckAdmits(w, s, t, st.ch, s', id);
  }

  lemma CheckAdmits(w: World, s: State, t: Tid, ch: Choice, s': State, id: Id)
    requires SetEnabled(w, s, t, ch) && s' == SetStep(w, s, t, ch) && Admits(s, s', t, id)
    ensures id < |s.items| <= |s'.items| && s'.items[id].passes == s.items[id].passes + [s.calls[t].pc.tick]
  {}

  /** What has got past the rate limit is recorded, and nothing else: one attempt at a time. */
  lemma AdmittedExactly(w: World, s: State, s': State, id: Id)
    requires Inv(w, s) && Inv(w, s') && Next(w, s, s') && id < |s.items|
    ensures id < |s'.items|
    ensures Admitted(s, s', id) <==> s'.items[id].passes != s.items[id].passes
    ensures forall t :: 0 <= t < |s.calls| && Admits(s, s', t, id) ==>
      s'.items[id].passes == s.items[id].passes + [s.calls[t].pc.tick]
  {
    var st :| Enabled(w, s, st) && s' == Apply(w, s, st);
    StepSizes(w, s, st, s');
    NextGrows(w, s, s');
    if s'.items[id].passes != s.items[id].passes { StepPasses(w, s, st, s', id); }
    forall t | 0 <= t < |s.calls| && Admits(s, s', t, id)
      ensures s'.items[id].passes == s.items[id].passes + [s.calls[t].pc.tick]
    {
      StepAdmits(w, s, st, s', t, id);
    }
  }

  // ----- the clock reading behind it -------------------------------------------------------

  /** Behind the rate check, and on the way out from there. */
  predicate PastRate(pc: WorkPc) {
    pc.Allocate? || pc.Parsing? || pc.Discard? || pc.Store? || pc.Bump? || pc.Notify? || pc.FreeOld? ||
    (pc.Exit? && (pc.code == ENOMEM || pc.code == EINVAL || pc.code == OK))
  }

  function Passes(s: State, id: Id): seq<nat> { if id < |s.items| then s.items[id].passes else [] }

  /** While `t` has the item lock, nobody else gets past the item's rate limit. */
  lemma OnlyHolderPasses(w: World, s: State, s': State, t: Tid, id: Id)
    requires Inv(w, s) && Inv(w, s') && Next(w, s, s') && t < |s.calls|
    requires HoldsItem(s.calls[t]) && s.calls[t].id == id
    requires Passes(s', id) != Passes(s, id)
    ensures Admits(s, s', t, id) && Passes(s', id) == Passes(s, id) + [s.calls[t].pc.tick]
  {
    LockInside(w, s, t);
    AdmittedExactly(w, s, s', id);
    var u :| 0 <= u < |s.calls| && Admits(s, s', u, id);
    LockInside(w, s, u);
  }

  /** In every run: a thread that compares a clock reading with the deadline, or is past that,
      has read the clock in this very call, with the item lock held ever since; and once it
      is past, that reading is the last one recorded. */
  lemma {:induction false} ReadInCall(w: World, tr: seq<State>, k: nat, t: Tid) returns (j: nat)
    requires Run(w, tr) && k < |tr| && t < |tr[k].calls| && Setting(tr[k].calls[t])
    requires tr[k].calls[t].pc.CheckRate? || PastRate(tr[k].calls[t].pc)
    ensures var c := tr[k].calls[t];
      j < k && Steady(tr, j, k, t, c.op, c.id) && tr[j].calls[t].pc.ReadTick? &&
      (if c.pc.CheckRate? then c.pc.tick == tr[j].now && Passes(tr[k], c.id) == Passes(tr[j], c.id)
       else Passes(tr[k], c.id) == Passes(tr[j], c.id) + [tr[j].now])
    decreases k
  {
    if k == 0 {
      IdleAtStart(w, tr, t);
      assert false;
    } else {
      RunTransition(w, tr, k, t);
      RunRead(w, tr, k, t);
      var c := tr[k].calls[t];
      if tr[k - 1].calls[t].pc.ReadTick? {
        j := k - 1;
      } else {
        j := ReadInCall(w, tr, k - 1, t);
      }
      SteadyOn(tr, j, k, t, c.op, c.id);
    }
  }

  lemma RunRead(w: World, tr: seq<State>, k: nat, t: Tid)
    requires Run(w, tr) && 0 < k < |tr| && t < |tr[k].calls| && t < |tr[k - 1].calls|
    requires Setting(tr[k].calls[t]) && (tr[k].calls[t].pc.CheckRate? || PastRate(tr[k].calls[t].pc))
    requires var c, c' := tr[k - 1].calls[t], tr[k].calls[t];
      c' == c || (Inside(tr[k - 1], t, c'.op, c'.id) && Arrives(tr[k - 1].items[c'.id], tr[k - 1].now, c.pc, c'.pc))
    ensures Setting(tr[k - 1].calls[t]) && Inside(tr[k - 1], t, tr[k].calls[t].op, tr[k].calls[t].id)
    ensures Passes(tr[k], tr[k].calls[t].id) == Passes(tr[k - 1], tr[k].calls[t].id) +
      if tr[k - 1].calls[t].pc.CheckRate? && tr[k].calls[t].pc.Allocate? then [tr[k - 1].calls[t].pc.tick] else []
  {
    RunInv(w, tr, k - 1);
    RunInv(w, tr, k);
    assert ThreadOk(w, tr[k - 1], t);
    ReadOn(w, tr[k - 1], tr[k], t);
    LockInside(w, tr[k - 1], t);
  }

  /** What a step does to the record of the item that its thread has locked. */
  lemma ReadOn(w: World, s: State, s': State, t: Tid)
    requires Inv(w, s) && Inv(w, s') && Next(w, s, s') && t < |s.calls| && t < |s'.calls|
    requires Setting(s.calls[t]) && Setting(s'.calls[t]) && s.calls[t].id == s'.calls[t].id
    ensures Passes(s', s.calls[t].id) == Passes(s, s.calls[t].id) +
      if s.calls[t].pc.CheckRate? && s'.calls[t].pc.Allocate? then [s.calls[t].pc.tick] else []
  {
    var id := s.calls[t].id;
    if Passes(s', id) != Passes(s, id) { OnlyHolderPasses(w, s, s', t, id); }
    if s.calls[t].pc.CheckRate? && s'.calls[t].pc.Allocate? {
      LockInside(w, s, t);
      NextTransition(w, s, s', t);
      AdmittedExactly(w, s, s', id);
      assert Admits(s, s', t, id);
    }
  }

  /** Attempt number `x` on item `id`: thread `t` read the clock in state `j` and was let
      through after state `c`, in one call and under one hold of the item lock. */
  predicate Attempt(tr: seq<State>, t: Tid, j: nat, c: nat, id: Id, x: nat) {
    j < c < |tr| - 1 && t < |tr[j].calls| && Setting(tr[j].calls[t]) && tr[j].calls[t].pc.ReadTick? &&
    Steady(tr, j, c, t, tr[j].calls[t].op, id) && Admits(tr[c], tr[c + 1], t, id) && |Passes(tr[c], id)| == x
  }

  lemma WhoPasses(w: World, s: State, s': State, id: Id) returns (t: Tid)
    requires Inv(w, s) && Inv(w, s') && Next(w, s, s') && id < |s.items| && Passes(s', id) != Passes(s, id)
    ensures Admits(s, s', t, id) && Passes(s', id) == Passes(s, id) + [s.calls[t].pc.tick]
  {
    AdmittedExactly(w, s, s', id);
    t :| 0 <= t < |s.calls| && Admits(s, s', t, id);
  }

  /** Whenever an attempt is recorded, what is recorded is the clock as that attempt read it. */
  lemma RecordedIsClock(w: World, tr: seq<State>, k: nat, id: Id) returns (t: Tid, j: nat)
    requires Run(w, tr) && k < |tr| - 1 && id < |tr[k].items| && Passes(tr[k + 1], id) != Passes(tr[k], id)
    ensures Attempt(tr, t, j, k, id, |Passes(tr[k], id)|)
    ensures Passes(tr[k + 1], id) == Passes(tr[k], id) + [tr[j].now]
  {
    RunInv(w, tr, k);
    RunInv(w, tr, k + 1);
    t := WhoPasses(w, tr[k], tr[k + 1], id);
    j := ReadInCall(w, tr, k, t);
    SteadyAttempt(tr, t, j, k, id);
  }

  lemma SteadyAttempt(tr: seq<State>, t: Tid, j: nat, c: nat, id: Id)
    requires j < c < |tr| - 1 && Admits(tr[c], tr[c + 1], t, id)
    requires Steady(tr, j, c, t, tr[c].calls[t].op, id)
    requires Inside(tr[j], t, tr[c].calls[t].op, id) ==> tr[j].calls[t].pc.ReadTick?
    ensures Attempt(tr, t, j, c, id, |Passes(tr[c], id)|)
  {
    assert Inside(tr[j], t, tr[c].calls[t].op, id);
  }

  /** The attempts let through so far, counted one by one. */
  ghost function Count(tr: seq<State>, id: Id, k: nat): nat
    requires k < |tr|
  {
    if k == 0 then 0 else Count(tr, id, k - 1) + if Admitted(tr[k - 1], tr[k], id) then 1 else 0
  }

  lemma NextPasses(w: World, s: State, s': State, id: Id)
    requires Inv(w, s) && Inv(w, s') && Next(w, s, s')
    ensures Passes(s, id) <= Passes(s', id)
    ensures |Passes(s', id)| == |Passes(s, id)| + if Admitted(s, s', id) then 1 else 0
  {
    if id < |s.items| {
      AdmittedExactly(w, s, s', id);
    } else {
      NewUnadmitted(w, s, s', id);
    }
  }

  lemma NewUnadmitted(w: World, s: State, s': State, id: Id)
    requires Inv(w, s) && Inv(w, s') && Next(w, s, s') && id >= |s.items|
    ensures !Admitted(s, s', id) && Passes(s', id) == []
  {
    forall t | 0 <= t < |s.calls| ensures !Admits(s, s', t, id) {
      if Admits(s, s', t, id) { LockInside(w, s, t); }
    }
    var st :| Enabled(w, s, st) && s' == Apply(w, s, st);
    if st.SetIt? { SetItems(w, s, st.t, st.ch, s'); } else { OtherUnrated(w, s, st); }
  }

  lemma SetItems(w: World, s: State, t: Tid, ch: Choice, s': State)
    requires SetEnabled(w, s, t, ch) && s' == SetStep(w, s, t, ch)
    ensures |s'.items| == |s.items|
  {}

  lemma {:induction false} PassesCount(w: World, tr: seq<State>, k: nat, id: Id)
    requires Run(w, tr) && k < |tr|
    ensures |Passes(tr[k], id)| == Count(tr, id, k)
  {
    if k > 0 {
      PassesCount(w, tr, k - 1, id);
      RunInv(w, tr, k - 1);
      RunInv(w, tr, k);
      NextPasses(w, tr[k - 1], tr[k], id);
    } else {
      assert tr[0].items == [];
    }
  }

  lemma RunPasses(w: World, tr: seq<State>, k: nat, id: Id)
    requires Run(w, tr) && 0 < k < |tr|
    ensures Passes(tr[k - 1], id) <= Passes(tr[k], id) && |Passes(tr[k], id)| <= |Passes(tr[k - 1], id)| + 1
    ensures Passes(tr[k], id) != Passes(tr[k - 1], id) ==> id < |tr[k - 1].items|
  {
    RunInv(w, tr, k - 1);
    RunInv(w, tr, k);
    NextPasses(w, tr[k - 1], tr[k], id);
    if Passes(tr[k], id) != Passes(tr[k - 1], id) { RecordedBefore(w, tr[k - 1], tr[k], id); }
  }

  /** Every recorded attempt was made, and read the clock as recorded. */
  lemma {:induction false} AttemptOf(w: World, tr: seq<State>, k: nat, id: Id, x: nat)
    returns (t: Tid, j: nat, c: nat)
    requires Run(w, tr) && k < |tr| && x < |Passes(tr[k], id)|
    ensures c < k && Attempt(tr, t, j, c, id, x) && tr[j].now == Passes(tr[k], id)[x]
    decreases k
  {
    if k == 0 {
      NothingAtStart(w, tr, id);
      assert false;
    } else {
      RunPasses(w, tr, k, id);
      if x < |Passes(tr[k - 1], id)| {
        t, j, c := AttemptOf(w, tr, k - 1, id, x);
      } else {
        t, j := RecordedIsClock(w, tr, k - 1, id);
        c := k - 1;
      }
    }
  }

  lemma NothingAtStart(w: World, tr: seq<State>, id: Id)
    requires Run(w, tr)
    ensures Passes(tr[0], id) == []
  {}

  lemma RecordedBefore(w: World, s: State, s': State, id: Id)
    requires Inv(w, s) && Inv(w, s') && Next(w, s, s') && Passes(s', id) != Passes(s, id)
    ensures id < |s.items|
  {
    if id >= |s.items| { NewUnadmitted(w, s, s', id); }
  }

  // ----- the promises --------------------------------------------------------------------

  /** If n attempts on an item are let through between states a and b, then (n - 1) intervals
      fit between the state in which the first of them read the clock and state b. */
  lemma RateLimit(w: World, tr: seq<State>, a: nat, b: nat, id: Id) returns (t: Tid, j: nat, c: nat)
    requires Run(w, tr) && a <= b < |tr| && NoWrap(tr[b]) && Count(tr, id, b) > Count(tr, id, a)
    ensures a <= c < b && Attempt(tr, t, j, c, id, Count(tr, id, a)) && id < |tr[b].items|
    ensures tr[b].items[id].name in w.tokens
    ensures (Count(tr, id, b) - Count(tr, id, a) - 1) * w.tokens[tr[b].items[id].name].minTicks <= tr[b].now - tr[j].now
  {
    var x, y := Count(tr, id, a), Count(tr, id, b) - 1;
    PassesCount(w, tr, a, id);
    PassesCount(w, tr, b, id);
    var p := Passes(tr[b], id);
    t, j, c := AttemptOf(w, tr, b, id, x);
    PassesCount(w, tr, c, id);
    PassesCount(w, tr, c + 1, id);
    CountGrows(tr, id, c + 1, a);
    var u, i, d := AttemptOf(w, tr, b, id, y);
    RunGrows(w, tr, i, b);
    RecordSpaced(w, tr, b, id, x, y, p[x], p[y]);
  }

  lemma {:induction false} CountGrows(tr: seq<State>, id: Id, i: nat, k: nat)
    requires i < |tr| && k < |tr|
    ensures i <= k ==> Count(tr, id, i) <= Count(tr, id, k)
    decreases k
  {
    if i < k { CountGrows(tr, id, i, k - 1); }
  }

  /** An attempt is turned away exactly when it reads the clock less than one interval after
      the last attempt that was let through read it. */
  lemma RejectedExactly(w: World, tr: seq<State>, k: nat, t: Tid, ch: Choice) returns (j: nat, u: Tid, i: nat, c: nat)
    requires Run(w, tr) && k < |tr| && NoWrap(tr[k])
    requires SetEnabled(w, tr[k], t, ch) && tr[k].calls[t].pc.CheckRate?
    ensures var id, n := tr[k].calls[t].id, Count(tr, tr[k].calls[t].id, k);
      j < k && Steady(tr, j, k, t, tr[k].calls[t].op, id) && tr[j].calls[t].pc.ReadTick? &&
      tr[k].items[id].name in w.tokens &&
      (n > 0 ==> c < k && Attempt(tr, u, i, c, id, n - 1)) &&
      (SetStep(w, tr[k], t, ch).calls[t].pc == Exit(EBUSY) <==>
       n > 0 && tr[j].now < tr[i].now + w.tokens[tr[k].items[id].name].minTicks)
  {
    var id := tr[k].calls[t].id;
    RejectedByRecord(w, tr, k, t, ch);
    PassesCount(w, tr, k, id);
    j := ReadInCall(w, tr, k, t);
    u, i, c := 0, 0, 0;
    if Count(tr, id, k) > 0 { u, i, c := AttemptOf(w, tr, k, id, Count(tr, id, k) - 1); }
  }

  /** A parser is only ever called for an attempt that was let through, and read the clock, in
      the same call: the last one on record. */
  lemma ParserIsAdmitted(w: World, tr: seq<State>, k: nat, t: Tid) returns (j: nat)
    requires Run(w, tr) && k < |tr| && t < |tr[k].calls| && tr[k].calls[t].Working? && tr[k].calls[t].pc.Parsing?
    ensures var c := tr[k].calls[t];
      j < k && Steady(tr, j, k, t, c.op, c.id) && tr[j].calls[t].pc.ReadTick? &&
      Count(tr, c.id, k) == Count(tr, c.id, j) + 1 &&
      Passes(tr[k], c.id) == Passes(tr[j], c.id) + [tr[j].now]
  {
    RunInv(w, tr, k);
    assert ThreadOk(w, tr[k], t);
    j := ReadInCall(w, tr, k, t);
    PassesCount(w, tr, k, tr[k].calls[t].id);
    PassesCount(w, tr, j, tr[k].calls[t].id);
  }
}
