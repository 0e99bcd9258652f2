/** The invariant holds in every state of every run. */
module Runs {
  import opened Base
  import opened Machine
  import opened Invariant
  import opened Preservation
  import opened Growth
  import opened Clients
  import opened BrokerSteps
  import opened ClientSteps

  lemma InitInv(w: World, s: State)
    requires w.Ok() && Init(s)
    ensures Inv(w, s)
  {
    forall t: Tid, i: nat, o: Obj ensures s.claims[Claim(Handler(t, i), o)] == Slot(s, t, i, o) {}
  }

  lemma ApplyInv(w: World, s: State, st: Step)
    requires Inv(w, s) && Enabled(w, s, st) && (st.PlainIt? && st.ch.Invoke? ==> Sensible(w, st.ch.op))
    ensures Inv(w, Apply(w, s, st))
  {
    match st
    case Tick(to) => TickInv(w, s, to);
    case Reclaim(o) => ReclaimInv(w, s, o);
    case Unseal(t) => UnsealInv(w, s, t);
    case FindIt(t, ch) => FindInv(w, s, t, ch);
    case Lock(t) => LockInv(w, s, t);
    case SetIt(t, ch) => SetInv(w, s, t, ch);
    case GetIt(t) => GetInv(w, s, t);
    case RegisterIt(t) => RegisterInv(w, s, t);
    case PlainIt(t, ch) => PlainInv(w, s, t, ch);
    case LoopIt(t, ch) => LoopInv(w, s, t, ch);
    case StatusIt(t, ch) => StatusInv(w, s, t, ch);
  }

  lemma NextInv(w: World, s: State, s': State)
    requires Inv(w, s) && Next(w, s, s')
    ensures Inv(w, s')
  {
    var st :| Enabled(w, s, st) && (st.PlainIt? && st.ch.Invoke? ==> Sensible(w, st.ch.op)) && s' == Apply(w, s, st);
    ApplyInv(w, s, st);
  }

  lemma {:induction false} RunInv(w: World, tr: seq<State>, k: nat)
    requires Run(w, tr) && k < |tr|
    ensures Inv(w, tr[k])
  {
    if k == 0 {
      InitInv(w, tr[0]);
    } else {
      RunInv(w, tr, k - 1);
      NextInv(w, tr[k - 1], tr[k]);
    }
  }

  // ----- growth over runs --------------------------------------------------------

  lemma GrowsTrans(a: State, b: State, c: State)
    requires Grows(a, b) && Grows(b, c)
    ensures Grows(a, c)
  {
    forall i | 0 <= i < |a.items| ensures Follows(a, c, i) {
      assert Follows(a, b, i) && Follows(b, c, i);
      var x, y, z := a.items[i].values, b.items[i].values, c.items[i].values;
      assert z[..|x|] == z[..|y|][..|x|];
    }
  }

  /** A client step leaves the broker's state alone and holds no item lock. */
  lemma ClientGrows(w: World, s: State, st: Step)
    requires Inv(w, s) && Enabled(w, s, st) && (st.PlainIt? || st.LoopIt? || st.StatusIt?)
    ensures InClient(s, Apply(w, s, st), st.t)
    ensures Grows(s, Apply(w, s, st))
  {
    var s' := Apply(w, s, st);
    assert ClientOk(w, s, st.t);
    assert InClient(s, s', st.t) by {
      match st
      case PlainIt(_, _) =>
      case LoopIt(t, ch) => LoopInClient(w, s, t, ch);
      case StatusIt(t, ch) => StatusInClient(w, s, t, ch);
    }
    InClientGrows(w, s, s', st.t);
  }

  lemma LoopInClient(w: World, s: State, t: Tid, ch: Choice)
    requires Inv(w, s) && LoopEnabled(s, t, ch)
    ensures InClient(s, LoopStep(s, t, ch), t)
  {
    match s.clients[t].lpc
    case Keeping(_, _, _) => ClaimsInClient(w, s, t, ch);
    case Release(_, _, _, _) => ClaimsInClient(w, s, t, ch);
    case _ => QuietInClient(w, s, t, ch);
  }

  lemma ClaimsInClient(w: World, s: State, t: Tid, ch: Choice)
    requires Inv(w, s) && LoopEnabled(s, t, ch) && (s.clients[t].lpc.Keeping? || s.clients[t].lpc.Release?)
    ensures InClient(s, LoopStep(s, t, ch), t)
  {
    assert ClientOk(w, s, t);
  }

  lemma QuietInClient(w: World, s: State, t: Tid, ch: Choice)
    requires Inv(w, s) && LoopEnabled(s, t, ch) && !s.clients[t].lpc.Keeping? && !s.clients[t].lpc.Release?
    ensures InClient(s, LoopStep(s, t, ch), t)
  {
    assert ClientOk(w, s, t);
    if s.clients[t].lpc.Scan? || s.clients[t].lpc.Await? {
      CallingInClient(s, t, ch, LoopStep(s, t, ch));
    } else {
      StayInClient(s, t, ch, LoopStep(s, t, ch));
    }
  }

  lemma CallingInClient(s: State, t: Tid, ch: Choice, s': State)
    requires LoopEnabled(s, t, ch) && s' == LoopStep(s, t, ch) && !HoldsItem(s.calls[t])
    requires s.clients[t].lpc.Scan? || s.clients[t].lpc.Await?
    ensures InClient(s, s', t)
  {}

  lemma StayInClient(s: State, t: Tid, ch: Choice, s': State)
    requires LoopEnabled(s, t, ch) && s' == LoopStep(s, t, ch) && !HoldsItem(s.calls[t])
    requires var pc := s.clients[t].lpc;
      pc.Ephemeral? || pc.Handling? || pc.Swap? || pc.Blocked?
    ensures InClient(s, s', t)
  {}

  lemma StatusInClient(w: World, s: State, t: Tid, ch: Choice)
    requires Inv(w, s) && StatusEnabled(s, t, ch)
    ensures InClient(s, StatusStep(s, t, ch), t)
  {
    assert ClientOk(w, s, t);
    if s.clients[t].spc.Secure? || s.clients[t].spc.Compare? {
      StatusClaimsInClient(s, t, ch, StatusStep(s, t, ch));
    } else {
      StatusStaysInClient(s, t, ch, StatusStep(s, t, ch));
    }
  }

  lemma StatusClaimsInClient(s: State, t: Tid, ch: Choice, s': State)
    requires StatusEnabled(s, t, ch) && s' == StatusStep(s, t, ch) && s.calls[t].Idle?
    requires s.clients[t].spc.Secure? || s.clients[t].spc.Compare?
    ensures InClient(s, s', t)
  {}

  lemma StatusStaysInClient(s: State, t: Tid, ch: Choice, s': State)
    requires StatusEnabled(s, t, ch) && s' == StatusStep(s, t, ch)
    requires s.clients[t].spc.Fetch? || s.calls[t].Idle?
    requires !s.clients[t].spc.Secure? && !s.clients[t].spc.Compare?
    ensures InClient(s, s', t)
  {}

  lemma CallOutside(w: World, s: State, st: Step)
    requires Inv(w, s) && Enabled(w, s, st) && (st.Unseal? || st.FindIt? || st.RegisterIt?)
    ensures Outside(w, s, Apply(w, s, st), st.t) && Apply(w, s, st).now == s.now
  {
    match st
    case Unseal(t) =>
    case FindIt(t, ch) => FindOutside(w, s, t, ch);
    case RegisterIt(t) => RegisterOutside(w, s, t);
  }

  lemma CallGrows(w: World, s: State, st: Step)
    requires Inv(w, s) && Enabled(w, s, st) && (st.Unseal? || st.FindIt? || st.RegisterIt?)
    ensures Outside(w, s, Apply(w, s, st), st.t)
    ensures Grows(s, Apply(w, s, st))
  {
    CallOutside(w, s, st);
    OutsideGrows(w, s, Apply(w, s, st), st.t);
  }

  lemma NextGrows(w: World, s: State, s': State)
    requires Inv(w, s) && Next(w, s, s')
    ensures Grows(s, s')
  {
    var st :| Enabled(w, s, st) && s' == Apply(w, s, st);
    ApplyGrows(w, s, st, s');
  }

  lemma ApplyGrows(w: World, s: State, st: Step, s': State)
    requires Inv(w, s) && Enabled(w, s, st) && s' == Apply(w, s, st)
    ensures Grows(s, s')
  {
    match st
    case Tick(to) =>
      assert forall i :: 0 <= i < |s.items| ==> HolderCall(s', i) == HolderCall(s, i);
    case Reclaim(o) =>
      assert forall i :: 0 <= i < |s.items| ==> HolderCall(s', i) == HolderCall(s, i);
    case Unseal(t) => CallGrows(w, s, st);
    case FindIt(t, ch) => CallGrows(w, s, st);
    case Lock(t) => LockGrows(w, s, t);
    case SetIt(t, ch) => SetGrows(w, s, t, ch);
    case GetIt(t) => GetGrows(w, s, t);
    case RegisterIt(t) => CallGrows(w, s, st);
    case PlainIt(t, ch) => ClientGrows(w, s, st);
    case LoopIt(t, ch) => ClientGrows(w, s, st);
    case StatusIt(t, ch) => ClientGrows(w, s, st);
  }

  lemma StepGrows(w: World, tr: seq<State>, k: nat)
    requires Run(w, tr) && 0 < k < |tr|
    ensures Grows(tr[k - 1], tr[k])
  {
    RunInv(w, tr, k - 1);
    NextGrows(w, tr[k - 1], tr[k]);
  }

  /** From any state of a run to any later one: no item is moved, renamed or removed, no
      published value is withdrawn, and no finished object changes. */
  lemma {:induction false} RunGrows(w: World, tr: seq<State>, j: nat, k: nat)
    requires Run(w, tr) && j <= k < |tr|
    ensures Grows(tr[j], tr[k])
    decreases k
  {
    if j == k {
    } else {
      RunGrows(w, tr, j, k - 1);
      StepGrows(w, tr, k);
      GrowsTrans(tr[j], tr[k - 1], tr[k]);
    }
  }
}
