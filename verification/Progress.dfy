/**
 The broker's locks hold nobody up for ever: a call can always be brought to its return,
 even while every thread that is at work on another item, in its parser for example, has
 stopped for good.
 */
module Progress {
  import opened Base
  import opened Machine
  import opened Invariant
  import opened Clients
  import opened Runs

  predicate Busy(c: Call) { !c.Idle? && !c.Returned? }

  // ----- the list lock has an owner ------------------------------------------------

  predicate ListOwned(s: State) {
    s.listLock.Some? ==> s.listLock.value < |s.calls| && HoldsList(s.calls[s.listLock.value])
  }

  /** A step by a thread that does not own the list lock, and leaves it alone. */
  predicate ListKept(s: State, s': State) {
    s'.listLock == s.listLock && |s'.calls| == |s.calls| &&
    forall u :: 0 <= u < |s.calls| && HoldsList(s.calls[u]) ==> s'.calls[u] == s.calls[u]
  }

  lemma LoopListKept(s: State, t: Tid, ch: Choice, s': State)
    requires LoopEnabled(s, t, ch) && s' == LoopStep(s, t, ch)
    requires s.clients[t].lpc.Scan? ==> s.calls[t].Idle?
    ensures ListKept(s, s')
  {}

  lemma ClientListKept(w: World, s: State, st: Step)
    requires Inv(w, s) && Enabled(w, s, st) && (st.PlainIt? || st.LoopIt? || st.StatusIt?)
    ensures ListKept(s, Apply(w, s, st))
  {
    assert ClientOk(w, s, st.t);
    if st.LoopIt? { LoopListKept(s, st.t, st.ch, Apply(w, s, st)); }
  }

  lemma CallListKept(w: World, s: State, st: Step)
    requires Enabled(w, s, st) && (st.Unseal? || st.Lock? || st.GetIt? || st.RegisterIt?)
    ensures ListKept(s, Apply(w, s, st))
  {}

  lemma SetListKept(w: World, s: State, t: Tid, ch: Choice)
    requires SetEnabled(w, s, t, ch)
    ensures ListKept(s, SetStep(w, s, t, ch))
  {}

  lemma FindListOwned(w: World, s: State, t: Tid, ch: Choice)
    requires BrokerInv(w, s) && ListOwned(s) && FindEnabled(s, t)
    ensures ListOwned(FindStep(s, t, ch))
  {
    assert ThreadOk(w, s, t);
  }

  lemma ApplyListOwned(w: World, s: State, st: Step)
    requires Inv(w, s) && ListOwned(s) && Enabled(w, s, st)
    ensures ListOwned(Apply(w, s, st))
  {
    match st
    case Tick(_) =>
    case Reclaim(_) =>
    case FindIt(t, ch) => FindListOwned(w, s, t, ch);
    case SetIt(t, ch) => SetListKept(w, s, t, ch);
    case PlainIt(_, _) => ClientListKept(w, s, st);
    case LoopIt(_, _) => ClientListKept(w, s, st);
    case StatusIt(_, _) => ClientListKept(w, s, st);
    case Unseal(_) => CallListKept(w, s, st);
    case Lock(_) => CallListKept(w, s, st);
    case GetIt(_) => CallListKept(w, s, st);
    case RegisterIt(_) => CallListKept(w, s, st);
  }

  lemma NextListOwned(w: World, s: State, s': State)
    requires Inv(w, s) && ListOwned(s) && Next(w, s, s')
    ensures ListOwned(s')
  {
    var st :| Enabled(w, s, st) && s' == Apply(w, s, st);
    ApplyListOwned(w, s, st);
  }

  lemma {:induction false} RunListOwned(w: World, tr: seq<State>, k: nat)
    requires Run(w, tr) && k < |tr|
    ensures ListOwned(tr[k])
  {
    if k > 0 {
      RunListOwned(w, tr, k - 1);
      RunInv(w, tr, k - 1);
      NextListOwned(w, tr[k - 1], tr[k]);
    }
  }

  // ----- who has to move ---------------------------------------------------------------

  /** The thread that the call of `t` waits for: itself, or the owner of the lock it wants. */
  function Blocker(s: State, t: Tid): Tid
    requires t < |s.calls|
  {
    var c := s.calls[t];
    if c.Finding? && c.fpc.WantList? && s.listLock.Some? then s.listLock.value
    else if c.Working? && c.pc.WantItem? && c.id < |s.items| && s.items[c.id].lock.Some? then s.items[c.id].lock.value
    else t
  }

  /** The next step of a call, were its allocation or parse to fail. */
  function StepOf(c: Call, t: Tid): Step {
    match c
    case Finding(_, _) => FindIt(t, Fail)
    case Working(op, _, pc) =>
      if pc.WantItem? then Lock(t) else if op.Set? then SetIt(t, Fail)
      else if op.Get? then GetIt(t) else RegisterIt(t)
    case _ => Unseal(t)
  }

  /** Not at work on an item of another name than that of call `d`. */
  predicate SameItem(c: Call, d: Call) {
    Busy(c) && Busy(d) && (c.Working? ==> c.op.cap.Sealed? && d.op.cap.Sealed? && c.op.cap.name == d.op.cap.name)
  }

  lemma Ready(w: World, s: State, u: Tid)
    requires Inv(w, s) && u < |s.calls| && Busy(s.calls[u])
    requires s.calls[u].Finding? && s.calls[u].fpc.WantList? ==> s.listLock.None?
    requires s.calls[u].Working? && s.calls[u].pc.WantItem? ==>
      s.calls[u].id < |s.items| && s.items[s.calls[u].id].lock.None?
    ensures Enabled(w, s, StepOf(s.calls[u], u))
  {
    assert ThreadOk(w, s, u);
    if InFlight(s.calls[u]).Some? { InFlightClaimed(w, s, u); }
  }

  /** Whoever the call of `t` waits for can move, and is not at work on any other item. */
  lemma BlockerReady(w: World, s: State, t: Tid)
    requires Inv(w, s) && ListOwned(s) && t < |s.calls| && Busy(s.calls[t])
    ensures var u := Blocker(s, t);
      u < |s.calls| && SameItem(s.calls[u], s.calls[t]) && Enabled(w, s, StepOf(s.calls[u], u))
  {
    var u, c := Blocker(s, t), s.calls[t];
    assert ThreadOk(w, s, t);
    if c.Working? {
      assert LockOk(s, c.id);
      assert ThreadOk(w, s, u);
    }
    Ready(w, s, u);
  }

  // ----- how much is left to do ------------------------------------------------------------

  /** At most this many steps to the return, whatever branches are taken. */
  function Left(c: Call): (n: nat)
    ensures n <= 20 && (n == 0 <==> !Busy(c))
  {
    match c
    case Idle => 0
    case Returned(_, _) => 0
    case Called(_) => 20
    case Finding(_, fpc) =>
      (match fpc case WantList => 19 case Searching => 18 case Linking => 17 case Leaving(_) => 16)
    case Working(_, _, pc) =>
      (match pc
       case WantItem => 15 case CheckParser => 14 case ReadTick => 13 case CheckRate(_) => 12
       case Allocate => 11 case Parsing(_) => 10 case Store(_) => 9 case Bump(_, _) => 8 case Notify(_) => 7
       case FreeOld(_) => 6 case Discard(_) => 6 case Exit(_) => 5
       case ReadVersion => 14 case ReadData(_, _) => 13 case Leave(_, _, _) => 12
       case WriteSize => 15 case WriteTicks => 14 case WriteParser => 13)
  }

  function Total(calls: seq<Call>): nat {
    if calls == [] then 0 else Left(calls[0]) + Total(calls[1..])
  }

  lemma {:induction false} TotalBound(calls: seq<Call>)
    ensures Total(calls) <= 20 * |calls|
  {
    if calls != [] { TotalBound(calls[1..]); }
  }

  lemma {:induction false} TotalDrops(a: seq<Call>, b: seq<Call>, u: nat)
    requires u < |a| == |b| && Left(b[u]) < Left(a[u])
    requires forall v :: 0 <= v < |a| && v != u ==> b[v] == a[v]
    ensures Total(b) < Total(a)
  {
    if u == 0 {
      assert b[1..] == a[1..];
    } else {
      TotalDrops(a[1..], b[1..], u - 1);
    }
  }

  /** A step of a call changes no other call, and brings its own closer to the return. */
  predicate Advances(s: State, s': State, u: Tid)
    requires u < |s.calls|
  {
    |s'.calls| == |s.calls| && (forall v :: 0 <= v < |s.calls| && v != u ==> s'.calls[v] == s.calls[v]) &&
    !s'.calls[u].Idle? && Left(s'.calls[u]) < Left(s.calls[u])
  }

  lemma SetAdvances(w: World, s: State, u: Tid, s': State)
    requires SetEnabled(w, s, u, Fail) && s' == SetStep(w, s, u, Fail)
    ensures Advances(s, s', u)
  {
    var pc := s.calls[u].pc;
    if pc.CheckParser? || pc.ReadTick? || pc.CheckRate? || pc.Allocate? || pc.Parsing? {
      SetAdvancesEarly(w, s, u, s');
    } else {
      SetAdvancesLate(w, s, u, s');
    }
  }

  lemma SetAdvancesEarly(w: World, s: State, u: Tid, s': State)
    requires SetEnabled(w, s, u, Fail) && s' == SetStep(w, s, u, Fail)
    requires var pc := s.calls[u].pc;
      pc.CheckParser? || pc.ReadTick? || pc.CheckRate? || pc.Allocate? || pc.Parsing?
    ensures Advances(s, s', u)
  {}

  lemma SetAdvancesLate(w: World, s: State, u: Tid, s': State)
    requires SetEnabled(w, s, u, Fail) && s' == SetStep(w, s, u, Fail)
    requires var pc := s.calls[u].pc;
      pc.Discard? || pc.Store? || pc.Bump? || pc.Notify? || pc.FreeOld? || pc.Exit?
    ensures Advances(s, s', u)
  {}

  lemma StepAdvances(w: World, s: State, u: Tid, s': State)
    requires u < |s.calls| && Busy(s.calls[u]) && Enabled(w, s, StepOf(s.calls[u], u))
    requires s' == Apply(w, s, StepOf(s.calls[u], u))
    ensures Advances(s, s', u)
  {
    match StepOf(s.calls[u], u)
    case SetIt(_, _) => SetAdvances(w, s, u, s');
    case FindIt(_, _) => FindAdvances(s, u, s');
    case RegisterIt(_) => RegisterAdvances(w, s, u, s');
    case _ => OtherAdvances(w, s, u, s');
  }

  lemma RegisterAdvances(w: World, s: State, u: Tid, s': State)
    requires RegisterEnabled(w, s, u) && s' == RegisterStep(w, s, u)
    ensures Advances(s, s', u)
  {}

  lemma FindAdvances(s: State, u: Tid, s': State)
    requires FindEnabled(s, u) && s' == FindStep(s, u, Fail)
    ensures Advances(s, s', u)
  {}

  lemma OtherAdvances(w: World, s: State, u: Tid, s': State)
    requires u < |s.calls| && Busy(s.calls[u]) && Enabled(w, s, StepOf(s.calls[u], u))
    requires !StepOf(s.calls[u], u).SetIt? && !StepOf(s.calls[u], u).FindIt? && !StepOf(s.calls[u], u).RegisterIt?
    requires s' == Apply(w, s, StepOf(s.calls[u], u))
    ensures Advances(s, s', u)
  {}

  // ----- every call can be served ------------------------------------------------------------

  /** Playing `steps` from `s` ends in `e`, and nobody moves who is at work on another item
      than the call of `t`. */
  ghost predicate Serves(w: World, s: State, t: Tid, steps: seq<Step>, e: State)
    decreases |steps|
  {
    if steps == [] then e == s
    else
      var st := steps[0];
      (st.Unseal? || st.FindIt? || st.Lock? || st.SetIt? || st.GetIt? || st.RegisterIt?) &&
      t < |s.calls| && st.t < |s.calls| && SameItem(s.calls[st.t], s.calls[t]) &&
      Enabled(w, s, st) && Serves(w, Apply(w, s, st), t, steps[1..], e)
  }

  /** One step by the thread that the call of `t` waits for. */
  lemma ServeOne(w: World, s: State, t: Tid) returns (st: Step, s': State)
    requires Inv(w, s) && ListOwned(s) && t < |s.calls| && Busy(s.calls[t])
    ensures st.Unseal? || st.FindIt? || st.Lock? || st.SetIt? || st.GetIt? || st.RegisterIt?
    ensures st.t < |s.calls| && SameItem(s.calls[st.t], s.calls[t]) && Enabled(w, s, st) && s' == Apply(w, s, st)
    ensures Inv(w, s') && ListOwned(s') && Total(s'.calls) < Total(s.calls)
    ensures t < |s'.calls| && !s'.calls[t].Idle?
  {
    BlockerReady(w, s, t);
    var u := Blocker(s, t);
    st := StepOf(s.calls[u], u);
    s' := Apply(w, s, st);
    StepAdvances(w, s, u, s');
    TotalDrops(s.calls, s'.calls, u);
    ApplyInv(w, s, st);
    ApplyListOwned(w, s, st);
  }

  lemma {:induction false} Served(w: World, s: State, t: Tid) returns (steps: seq<Step>, e: State)
    requires Inv(w, s) && ListOwned(s) && t < |s.calls| && !s.calls[t].Idle?
    ensures Serves(w, s, t, steps, e) && |steps| <= Total(s.calls)
    ensures t < |e.calls| && e.calls[t].Returned?
    decreases Total(s.calls)
  {
    if s.calls[t].Returned? {
      steps, e := [], s;
    } else {
      var st, s' := ServeOne(w, s, t);
      var rest;
      rest, e := Served(w, s', t);
      steps := [st] + rest;
      assert steps[1..] == rest;
    }
  }

  /** In every state of every run, each call in progress can be brought to its return
      within 20 steps for each thread, none of them by a thread that is at work on another
      item: neither a lock nor another item's parser can hold it up for ever. */
  lemma EveryCallServed(w: World, tr: seq<State>, k: nat, t: Tid)
    requires Run(w, tr) && k < |tr| && t < |tr[k].calls| && Busy(tr[k].calls[t])
    ensures exists steps, e ::
      Serves(w, tr[k], t, steps, e) && |steps| <= 20 * |tr[k].calls| &&
      t < |e.calls| && e.calls[t].Returned?
  {
    RunInv(w, tr, k);
    RunListOwned(w, tr, k);
    TotalBound(tr[k].calls);
    var steps, e := Served(w, tr[k], t);
  }
}
