/** Where things come from: each program point of set_config, each value, each attempt. */
module Causes {
  import opened Base
  import opened Machine
  import opened Invariant
  import opened Preservation
  import opened Clients
  import opened ClientSteps
  import opened Runs
  import opened Adoption

  // ----- the program points of set_config --------------------------------------------

  predicate Setting(c: Call) { c.Working? && c.op.Set? && HoldsItem(c) }

  /** The only way to `pc'`, for a thread that holds the lock of `it` at time `now`: each
      return code has its own place. */
  predicate Arrives(it: Item, now: nat, pc: WorkPc, pc': WorkPc) {
    match pc'
    case ReadTick => pc.CheckParser? && it.parser
    case CheckRate(tick) => pc.ReadTick? && tick == now
    case Allocate => pc.CheckRate?
    case Parsing(_) => pc.Allocate?
    case Discard(o) => pc == Parsing(o)
    case Store(o) => pc == Parsing(o)
    case Bump(o, _) => pc == Store(o)
    case Notify(prev) => pc.Bump? && pc.prev == prev
    case FreeOld(prev) => pc == Notify(prev)
    case Exit(code) =>
      (match code
       case ENODEV => pc.CheckParser? && !it.parser
       case EBUSY => pc.CheckRate?
       case ENOMEM => pc.Allocate?
       case EINVAL => pc.Discard?
       case OK => pc.FreeOld?
       case _ => false)
    case _ => false
  }

  predicate Arrived(s: State, t: Tid, s': State) {
    t < |s.calls| && t < |s'.calls| && s.calls[t].Working? && s.calls[t].id < |s.items| &&
    var c, c' := s.calls[t], s'.calls[t];
    c' == c || (c.pc.Exit? && c' == Returned(c.op, Status(c.pc.code))) ||
    (c'.Working? && c'.op == c.op && c'.id == c.id && Arrives(s.items[c.id], s.now, c.pc, c'.pc))
  }

  lemma SetArrives(w: World, s: State, t: Tid, ch: Choice, s': State)
    requires SetEnabled(w, s, t, ch) && s' == SetStep(w, s, t, ch)
    ensures Arrived(s, t, s')
  {
    var pc := s.calls[t].pc;
    if pc.CheckParser? || pc.ReadTick? || pc.CheckRate? || pc.Allocate? {
      AdmitArrives(w, s, t, ch, s');
    } else if pc.Parsing? || pc.Discard? || pc.Store? || pc.Bump? {
      ParseArrives(w, s, t, ch, s');
    } else {
      FinishArrives(w, s, t, ch, s');
    }
  }

  lemma AdmitArrives(w: World, s: State, t: Tid, ch: Choice, s': State)
    requires SetEnabled(w, s, t, ch) && s' == SetStep(w, s, t, ch)
    requires var pc := s.calls[t].pc; pc.CheckParser? || pc.ReadTick? || pc.CheckRate? || pc.Allocate?
    ensures Arrived(s, t, s')
  {}

  lemma ParseArrives(w: World, s: State, t: Tid, ch: Choice, s': State)
    requires SetEnabled(w, s, t, ch) && s' == SetStep(w, s, t, ch)
    requires var pc := s.calls[t].pc; pc.Parsing? || pc.Discard? || pc.Store? || pc.Bump?
    ensures Arrived(s, t, s')
  {}

  lemma FinishArrives(w: World, s: State, t: Tid, ch: Choice, s': State)
    requires SetEnabled(w, s, t, ch) && s' == SetStep(w, s, t, ch)
    requires var pc := s.calls[t].pc; pc.Notify? || pc.FreeOld? || pc.Exit?
    ensures Arrived(s, t, s')
  {}

  /** A step that brings thread `t` to `c'`, with an item lock, inside set_config. */
  lemma OwnTransition(w: World, s: State, st: Step, s': State, t: Tid)
    requires Inv(w, s) && Enabled(w, s, st) && s' == Apply(w, s, st)
    requires t < |s.calls| == |s'.calls| && Setting(s'.calls[t])
    ensures s'.calls[t] == s.calls[t] || s'.calls[t].pc.CheckParser? ||
      (st.SetIt? && st.t == t && SetEnabled(w, s, t, st.ch) && s.calls[t].Working? &&
       s.calls[t].op == s'.calls[t].op && s.calls[t].id == s'.calls[t].id < |s.items| &&
       Arrives(s.items[s.calls[t].id], s.now, s.calls[t].pc, s'.calls[t].pc))
  {
    if st.Tick? || st.Reclaim? || st.t != t {
      StepAside(w, s, st, t);
    } else {
      OwnArrival(w, s, st, s');
    }
  }

  lemma OwnArrival(w: World, s: State, st: Step, s': State)
    requires Inv(w, s) && Enabled(w, s, st) && s' == Apply(w, s, st) && !st.Tick? && !st.Reclaim?
    requires st.t < |s.calls| == |s'.calls| && Setting(s'.calls[st.t])
    ensures var t := st.t;
      s'.calls[t] == s.calls[t] || s'.calls[t].pc.CheckParser? ||
      (st.SetIt? && SetEnabled(w, s, t, st.ch) && s.calls[t].Working? &&
       s.calls[t].op == s'.calls[t].op && s.calls[t].id == s'.calls[t].id < |s.items| &&
       Arrives(s.items[s.calls[t].id], s.now, s.calls[t].pc, s'.calls[t].pc))
  {
    assert ThreadOk(w, s, st.t);
    match st
    case SetIt(t, ch) => SetArrives(w, s, t, ch, s');
    case LoopIt(t, ch) => ClientArrives(w, s, st, s');
    case StatusIt(t, ch) => ClientArrives(w, s, st, s');
    case PlainIt(t, ch) => ClientArrives(w, s, st, s');
    case _ => CallArrives(w, s, st, s');
  }

  lemma ClientArrives(w: World, s: State, st: Step, s': State)
    requires Inv(w, s) && Enabled(w, s, st) && s' == Apply(w, s, st) && (st.PlainIt? || st.LoopIt? || st.StatusIt?)
    ensures st.t < |s'.calls| && !HoldsItem(s'.calls[st.t])
  {
    ClientGrows(w, s, st);
  }

  lemma CallArrives(w: World, s: State, st: Step, s': State)
    requires Enabled(w, s, st) && s' == Apply(w, s, st)
    requires st.Unseal? || st.FindIt? || st.Lock? || st.GetIt? || st.RegisterIt?
    requires st.t < |s.calls| == |s'.calls| && Placed(s, st.t) && Setting(s'.calls[st.t])
    ensures s'.calls[st.t].pc.CheckParser?
  {}

  /** Thread `t` is in one call on item `id`, with its lock, from state `j` to state `k`. */
  predicate Steady(tr: seq<State>, j: nat, k: nat, t: Tid, op: Op, id: Id)
    requires j <= k < |tr|
  {
    forall m :: j <= m <= k ==> Inside(tr[m], t, op, id)
  }

  predicate Inside(s: State, t: Tid, op: Op, id: Id) {
    t < |s.calls| && s.calls[t].Working? && s.calls[t].op == op && s.calls[t].id == id < |s.items| &&
    s.items[id].lock == Some(t)
  }

  lemma LockInside(w: World, s: State, t: Tid)
    requires Inv(w, s) && t < |s.calls| && s.calls[t].Working? && HoldsItem(s.calls[t])
    ensures Inside(s, t, s.calls[t].op, s.calls[t].id)
  {
    assert ThreadOk(w, s, t);
  }

  lemma NextTransition(w: World, s: State, s': State, t: Tid)
    requires Inv(w, s) && Inv(w, s') && Next(w, s, s') && t < |s'.calls| && Setting(s'.calls[t])
    ensures t < |s.calls|
    ensures s'.calls[t] == s.calls[t] || s'.calls[t].pc.CheckParser? ||
      (Inside(s, t, s'.calls[t].op, s'.calls[t].id) &&
       Arrives(s.items[s.calls[t].id], s.now, s.calls[t].pc, s'.calls[t].pc))
  {
    var st :| Enabled(w, s, st) && s' == Apply(w, s, st);
    StepSizes(w, s, st, s');
    OwnTransition(w, s, st, s', t);
    if s'.calls[t] != s.calls[t] && !s'.calls[t].pc.CheckParser? { LockInside(w, s, t); }
  }

  lemma IdleAtStart(w: World, tr: seq<State>, t: Tid)
    requires Run(w, tr) && t < |tr[0].calls|
    ensures tr[0].calls[t].Idle?
  {}

  /** What was steady up to the last state but one is steady up to the last. */
  lemma SteadyOn(tr: seq<State>, j: nat, k: nat, t: Tid, op: Op, id: Id)
    requires j < k < |tr| && Steady(tr, j, k - 1, t, op, id) && Inside(tr[k], t, op, id)
    ensures Steady(tr, j, k, t, op, id)
  {}

  predicate AtFrom(tr: seq<State>, j: nat, k: nat, t: Tid, c: Call)
    requires j <= k < |tr|
  {
    forall m :: j <= m <= k ==> t < |tr[m].calls| && tr[m].calls[t] == c
  }

  lemma RunTransition(w: World, tr: seq<State>, k: nat, t: Tid)
    requires Run(w, tr) && 0 < k < |tr| && t < |tr[k].calls| && Setting(tr[k].calls[t])
    ensures t < |tr[k - 1].calls|
    ensures var c, c' := tr[k - 1].calls[t], tr[k].calls[t];
      Inside(tr[k], t, c'.op, c'.id) &&
      (c' == c || c'.pc.CheckParser? ||
       (Inside(tr[k - 1], t, c'.op, c'.id) && Arrives(tr[k - 1].items[c'.id], tr[k - 1].now, c.pc, c'.pc)))
  {
    RunInv(w, tr, k - 1);
    RunInv(w, tr, k);
    NextTransition(w, tr[k - 1], tr[k], t);
    LockInside(w, tr[k], t);
  }

  /** In every run: a thread inside set_config came to its program point from the one before,
      in the same call and without giving up the item lock. */
  lemma {:induction false} CameFrom(w: World, tr: seq<State>, k: nat, t: Tid) returns (j: nat)
    requires Run(w, tr) && k < |tr| && t < |tr[k].calls| && Setting(tr[k].calls[t]) && !tr[k].calls[t].pc.CheckParser?
    ensures var c := tr[k].calls[t];
      j < k && Steady(tr, j, k, t, c.op, c.id) && AtFrom(tr, j + 1, k, t, c) &&
      Arrives(tr[j].items[c.id], tr[j].now, tr[j].calls[t].pc, c.pc)
    decreases k
  {
    if k == 0 {
      IdleAtStart(w, tr, t);
      assert false;
    } else {
      RunTransition(w, tr, k, t);
      j := if tr[k - 1].calls[t] == tr[k].calls[t] then 0 else k - 1;
      if tr[k - 1].calls[t] == tr[k].calls[t] { j := CameFrom(w, tr, k - 1, t); }
      SteadyOn(tr, j, k, t, tr[k].calls[t].op, tr[k].calls[t].id);
    }
  }

  /** The buffer that a parser is first given is new, of the item's size, and all zero. */
  lemma FreshBuffer(w: World, s: State, t: Tid, ch: Choice, s': State)
    requires Inv(w, s) && SetEnabled(w, s, t, ch) && s' == SetStep(w, s, t, ch)
    requires s.calls[t].pc.Allocate? && t < |s'.calls| && s'.calls[t].Working? && s'.calls[t].pc.Parsing?
    ensures var o := s'.calls[t].pc.obj;
      o !in s.heap && o in s'.heap && s'.heap[o].item == s.calls[t].id && !s'.heap[o].frozen &&
      |s'.heap[o].bytes| == s.items[s.calls[t].id].size &&
      forall i :: 0 <= i < |s'.heap[o].bytes| ==> s'.heap[o].bytes[i] == 0
  {}

  // ----- who may do what --------------------------------------------------------------------

  /** Thread `t` is about to count a value for item `id`, with the capability to write it. */
  predicate Writes(w: World, s: State, s': State, t: Tid, id: Id)
    requires id < |s.items| <= |s'.items|
  {
    t < |s.calls| && s.calls[t].Working? && s.calls[t].id == id && s.calls[t].pc.Bump? &&
    s.calls[t].op.Set? && s.calls[t].op.cap == Sealed(WriteKey, s.items[id].name) &&
    s.calls[t].pc.obj in s.heap && s.items[id].name in w.tokens &&
    s'.items[id].values == s.items[id].values + [s.heap[s.calls[t].pc.obj].bytes] &&
    w.tokens[s.items[id].name].parses(s.calls[t].op.src, s.heap[s.calls[t].pc.obj].bytes)
  }

  /** Thread `t` is about to store the parser of item `id`, with the capability to do so. */
  predicate Registers(s: State, t: Tid, id: Id)
    requires id < |s.items|
  {
    t < |s.calls| && s.calls[t].Working? && s.calls[t].id == id && s.calls[t].pc.WriteParser? &&
    s.calls[t].op == Register(Sealed(ParserKey, s.items[id].name))
  }

  lemma StepWrites(w: World, s: State, st: Step, s': State, id: Id)
    requires Inv(w, s) && Enabled(w, s, st) && s' == Apply(w, s, st) && id < |s.items| <= |s'.items|
    requires s'.items[id].values != s.items[id].values
    ensures st.SetIt? && Writes(w, s, s', st.t, id)
  {
    if st.SetIt? {
      assert ThreadOk(w, s, st.t);
      SetWrites(w, s, st.t, st.ch, s', id);
    } else {
      KeptValues(w, s, st, s', id);
    }
  }

  lemma SetWrites(w: World, s: State, t: Tid, ch: Choice, s': State, id: Id)
    requires SetEnabled(w, s, t, ch) && s' == SetStep(w, s, t, ch) && id < |s.items| <= |s'.items|
    requires Placed(s, t) && Flying(w, s, t) && s'.items[id].values != s.items[id].values
    ensures Writes(w, s, s', t, id)
  {}

  lemma KeptValues(w: World, s: State, st: Step, s': State, id: Id)
    requires Inv(w, s) && Enabled(w, s, st) && s' == Apply(w, s, st) && id < |s.items| && !st.SetIt?
    ensures id < |s'.items| && s'.items[id].values == s.items[id].values
  {
    if st.PlainIt? || st.LoopIt? || st.StatusIt? {
      ClientGrows(w, s, st);
    } else if st.Unseal? || st.FindIt? || st.RegisterIt? {
      CallOutside(w, s, st);
      assert Same(s.items[id], s'.items[id]);
    } else {
      KeptItems(w, s, st, s', id);
    }
  }

  lemma KeptItems(w: World, s: State, st: Step, s': State, id: Id)
    requires Enabled(w, s, st) && s' == Apply(w, s, st) && id < |s.items|
    requires st.Tick? || st.Reclaim? || st.Lock? || st.GetIt?
    ensures id < |s'.items| && s'.items[id].values == s.items[id].values && s'.items[id].parser == s.items[id].parser
  {}

  /** A value is only ever published by a call with the write capability for that name, and
      it is a parse of the source given to that call. */
  lemma OnlyWriters(w: World, tr: seq<State>, k: nat, id: Id) returns (t: Tid)
    requires Run(w, tr) && k < |tr| - 1 && id < |tr[k].items| <= |tr[k + 1].items|
    requires tr[k + 1].items[id].values != tr[k].items[id].values
    ensures Writes(w, tr[k], tr[k + 1], t, id)
  {
    RunInv(w, tr, k);
    assert Next(w, tr[k], tr[k + 1]);
    var st :| Enabled(w, tr[k], st) && tr[k + 1] == Apply(w, tr[k], st);
    StepWrites(w, tr[k], st, tr[k + 1], id);
    t := st.t;
  }

  lemma StepRegisters(w: World, s: State, st: Step, s': State, id: Id)
    requires Inv(w, s) && Enabled(w, s, st) && s' == Apply(w, s, st) && id < |s.items| <= |s'.items|
    requires s'.items[id].parser != s.items[id].parser
    ensures st.RegisterIt? && Registers(s, st.t, id)
  {
    if st.RegisterIt? {
      assert ThreadOk(w, s, st.t);
      RegisterRegisters(w, s, st.t, s', id);
    } else {
      KeptParser(w, s, st, s', id);
    }
  }

  lemma RegisterRegisters(w: World, s: State, t: Tid, s': State, id: Id)
    requires RegisterEnabled(w, s, t) && s' == RegisterStep(w, s, t) && id < |s.items| <= |s'.items|
    requires Placed(s, t) && s'.items[id].parser != s.items[id].parser
    ensures Registers(s, t, id)
  {}

  lemma KeptParser(w: World, s: State, st: Step, s': State, id: Id)
    requires Inv(w, s) && Enabled(w, s, st) && s' == Apply(w, s, st) && id < |s.items| && !st.RegisterIt?
    ensures id < |s'.items| && s'.items[id].parser == s.items[id].parser
  {
    if st.PlainIt? || st.LoopIt? || st.StatusIt? {
      ClientGrows(w, s, st);
    } else if st.SetIt? {
      SetParsers(w, s, st.t, st.ch, s', id);
    } else if st.Unseal? || st.FindIt? {
      FindParsers(w, s, st, s', id);
    } else {
      KeptItems(w, s, st, s', id);
    }
  }

  lemma SetParsers(w: World, s: State, t: Tid, ch: Choice, s': State, id: Id)
    requires SetEnabled(w, s, t, ch) && s' == SetStep(w, s, t, ch) && id < |s.items|
    ensures id < |s'.items| && s'.items[id].parser == s.items[id].parser
  {}

  lemma FindParsers(w: World, s: State, st: Step, s': State, id: Id)
    requires Enabled(w, s, st) && s' == Apply(w, s, st) && id < |s.items| && (st.Unseal? || st.FindIt?)
    ensures id < |s'.items| && s'.items[id].parser == s.items[id].parser
  {}

  /** A parser is only ever registered by a call with the parser capability for that name. */
  lemma OnlyRegistrars(w: World, tr: seq<State>, k: nat, id: Id) returns (t: Tid)
    requires Run(w, tr) && k < |tr| - 1 && id < |tr[k].items| <= |tr[k + 1].items|
    requires tr[k + 1].items[id].parser != tr[k].items[id].parser
    ensures Registers(tr[k], t, id)
  {
    RunInv(w, tr, k);
    assert Next(w, tr[k], tr[k + 1]);
    var st :| Enabled(w, tr[k], st) && tr[k + 1] == Apply(w, tr[k], st);
    StepRegisters(w, tr[k], st, tr[k + 1], id);
    t := st.t;
  }

  predicate ReaderCall(c: Call) {
    (c.Returned? && c.reply.Found? ==> c.op.Get? && c.op.cap.Sealed? && c.op.cap.key == ReadKey) &&
    (c.Working? && c.op.Get? ==> c.op.cap.Sealed? && c.op.cap.key == ReadKey)
  }

  lemma StepReader(w: World, s: State, st: Step, s': State, t: Tid)
    requires Inv(w, s) && Enabled(w, s, st) && s' == Apply(w, s, st) && t < |s.calls| == |s'.calls|
    requires ReaderCall(s.calls[t])
    ensures ReaderCall(s'.calls[t])
  {
    if st.Tick? || st.Reclaim? || st.t != t {
      StepAside(w, s, st, t);
    } else {
      assert ThreadOk(w, s, t) && ClientOk(w, s, t);
      match st
      case SetIt(_, ch) => SetArrives(w, s, t, ch, s');
      case PlainIt(_, _) => ClientCalls(w, s, st, s');
      case LoopIt(_, _) => ClientCalls(w, s, st, s');
      case StatusIt(_, _) => ClientCalls(w, s, st, s');
      case _ => CallReader(w, s, st, s');
    }
  }

  lemma ClientCalls(w: World, s: State, st: Step, s': State)
    requires Inv(w, s) && Enabled(w, s, st) && s' == Apply(w, s, st) && (st.PlainIt? || st.LoopIt? || st.StatusIt?)
    ensures st.t < |s'.calls| && (s'.calls[st.t] == s.calls[st.t] || s'.calls[st.t].Idle? || s'.calls[st.t].Called?)
  {
    assert ClientOk(w, s, st.t);
    match st
    case PlainIt(_, _) =>
    case LoopIt(t, ch) => LoopCalls(s, t, ch, s');
    case StatusIt(t, ch) => StatusCalls(s, t, ch, s');
  }

  lemma LoopCalls(s: State, t: Tid, ch: Choice, s': State)
    requires LoopEnabled(s, t, ch) && s' == LoopStep(s, t, ch)
    ensures t < |s'.calls| && (s'.calls[t] == s.calls[t] || s'.calls[t].Idle? || s'.calls[t].Called?)
  {}

  lemma StatusCalls(s: State, t: Tid, ch: Choice, s': State)
    requires StatusEnabled(s, t, ch) && s' == StatusStep(s, t, ch)
    ensures t < |s'.calls| && (s'.calls[t] == s.calls[t] || s'.calls[t].Idle? || s'.calls[t].Called?)
  {}

  lemma CallReader(w: World, s: State, st: Step, s': State)
    requires Enabled(w, s, st) && s' == Apply(w, s, st)
    requires st.Unseal? || st.FindIt? || st.Lock? || st.GetIt? || st.RegisterIt?
    requires st.t < |s.calls| == |s'.calls| && Placed(s, st.t) && ReaderCall(s.calls[st.t])
    ensures ReaderCall(s'.calls[st.t])
  {}

  /** A value is only ever handed to a call with the read capability for that name. */
  lemma {:induction false} OnlyReaders(w: World, tr: seq<State>, k: nat, t: Tid)
    requires Run(w, tr) && k < |tr| && t < |tr[k].calls|
    ensures ReaderCall(tr[k].calls[t])
    ensures var c := tr[k].calls[t];
      c.Returned? && c.reply.Found? ==>
        c.reply.id < |tr[k].items| && c.op == Get(Sealed(ReadKey, tr[k].items[c.reply.id].name))
  {
    RunInv(w, tr, k);
    assert ReplyOk(tr[k], t);
    if k == 0 {
      IdleAtStart(w, tr, t);
    } else {
      RunInv(w, tr, k - 1);
      SameSize(w, tr[k - 1], tr[k]);
      OnlyReaders(w, tr, k - 1, t);
      ReaderOn(w, tr[k - 1], tr[k], t);
    }
  }

  lemma SameSize(w: World, s: State, s': State)
    requires Next(w, s, s')
    ensures |s'.calls| == |s.calls|
  {
    var st :| Enabled(w, s, st) && s' == Apply(w, s, st);
    StepSizes(w, s, st, s');
  }

  lemma ReaderOn(w: World, s: State, s': State, t: Tid)
    requires Inv(w, s) && Next(w, s, s') && t < |s.calls| == |s'.calls| && ReaderCall(s.calls[t])
    ensures ReaderCall(s'.calls[t])
  {
    var st :| Enabled(w, s, st) && s' == Apply(w, s, st);
    StepReader(w, s, st, s', t);
  }
}
