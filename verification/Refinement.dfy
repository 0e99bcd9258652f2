/** Every interleaving of the broker's steps is a run of the atomic book. */
module Refinement {
  import opened Base
  import opened Machine
  import opened Invariant
  import opened Preservation
  import opened Growth
  import opened Clients
  import opened BrokerSteps
  import opened ClientSteps
  import opened Runs
  import opened Atomic

  // ----- the abstraction -----------------------------------------------------------

  function Lookup(items: seq<Item>, n: Name): Entry {
    var r := FindItem(items, n);
    if r.Some? then Entry(items[r.value].values, items[r.value].parser) else Entry([], false)
  }

  ghost function BookOf(items: seq<Item>): Book {
    imap n: Name :: Lookup(items, n)
  }

  function AnswerOf(items: seq<Item>, r: Reply): Answer {
    match r
    case Status(code) => Done(code)
    case NoItem => Nothing
    case Found(id, v, n, _) => Value(v, if id < |items| then Nth(items[id].values, n) else None)
  }

  /** A call has taken effect once its answer is determined. */
  function PhaseOf(items: seq<Item>, c: Call): Phase {
    match c
    case Idle => Free
    case Called(op) => Pending(op)
    case Finding(op, pc) =>
      if pc == Leaving(None) then Answered(op, AnswerOf(items, Refusal(op, ENOMEM))) else Pending(op)
    case Working(op, id, pc) =>
      (match pc
       case Notify(_) => Answered(op, Done(OK))
       case FreeOld(_) => Answered(op, Done(OK))
       case Exit(code) => Answered(op, Done(code))
       case ReadData(v, n) => Answered(op, AnswerOf(items, Found(id, v, n, None)))
       case Leave(v, n, d) => Answered(op, AnswerOf(items, Found(id, v, n, d)))
       case _ => Pending(op))
    case Returned(op, r) => Answered(op, AnswerOf(items, r))
  }

  ghost function Abs(s: State): AState {
    AState(BookOf(s.items), seq(|s.calls|, t requires 0 <= t < |s.calls| => PhaseOf(s.items, s.calls[t])))
  }

  // ----- lookups ---------------------------------------------------------------------

  lemma LookupAt(s: State, id: Id)
    requires Names(s) && id < |s.items|
    ensures Lookup(s.items, s.items[id].name) == Entry(s.items[id].values, s.items[id].parser)
  {
    var r := FindItem(s.items, s.items[id].name);
    assert r.Some?;
    assert r.value == id;
  }

  predicate SameEntry(a: Item, b: Item) { b.name == a.name && b.values == a.values && b.parser == a.parser }

  lemma BookSame(s: State, s': State)
    requires Names(s) && Names(s') && |s.items| <= |s'.items|
    requires forall i :: 0 <= i < |s.items| ==> SameEntry(s.items[i], s'.items[i])
    requires forall i :: |s.items| <= i < |s'.items| ==> s'.items[i] == NewItem(s'.items[i].name)
    ensures BookOf(s'.items) == BookOf(s.items)
  {
    forall n: Name ensures Lookup(s'.items, n) == Lookup(s.items, n) {
      var r, r' := FindItem(s.items, n), FindItem(s'.items, n);
      if r.Some? { LookupAt(s, r.value); LookupAt(s', r.value); }
      else if r'.Some? { assert r'.value >= |s.items|; }
    }
  }

  /** Items may change, but not in what the book shows. */
  lemma BookKept(s: State, s': State)
    requires Names(s) && |s'.items| == |s.items|
    requires forall i :: 0 <= i < |s.items| ==> SameEntry(s.items[i], s'.items[i])
    ensures BookOf(s'.items) == BookOf(s.items)
  {
    assert forall i :: 0 <= i < |s.items| ==> s'.items[i].name == s.items[i].name by {
      assert forall i :: 0 <= i < |s.items| ==> SameEntry(s.items[i], s'.items[i]);
    }
    BookSame(s, s');
  }

  lemma BookPut(s: State, s': State, id: Id)
    requires Names(s) && |s'.items| == |s.items| && id < |s.items|
    requires forall i :: 0 <= i < |s.items| ==> s'.items[i].name == s.items[i].name
    requires forall i :: 0 <= i < |s.items| && i != id ==>
      s'.items[i].values == s.items[i].values && s'.items[i].parser == s.items[i].parser
    ensures BookOf(s'.items) == BookOf(s.items)[s.items[id].name := Entry(s'.items[id].values, s'.items[id].parser)]
  {
    forall n: Name
      ensures Lookup(s'.items, n) ==
        if n == s.items[id].name then Entry(s'.items[id].values, s'.items[id].parser) else Lookup(s.items, n)
    {
      var r, r' := FindItem(s.items, n), FindItem(s'.items, n);
      if r.Some? { LookupAt(s, r.value); LookupAt(s', r.value); }
    }
  }

  // ----- other threads -----------------------------------------------------------------

  /** The answer of a call that has taken effect does not change while others move. */
  lemma PhaseStable(w: World, s: State, s': State, u: Tid)
    requires Inv(w, s) && u < |s.calls| == |s'.calls| && Grows(s, s') && s'.calls[u] == s.calls[u]
    ensures PhaseOf(s'.items, s'.calls[u]) == PhaseOf(s.items, s.calls[u])
  {
    var c := s.calls[u];
    assert ThreadOk(w, s, u) && ReplyOk(s, u);
    if c.Working? && (c.pc.ReadData? || c.pc.Leave?) {
      NthStable(s, s', c.id, c.pc.count);
    } else if c.Returned? && c.reply.Found? {
      NthStable(s, s', c.reply.id, c.reply.count);
    }
  }

  lemma NthStable(s: State, s': State, id: Id, n: nat)
    requires Grows(s, s') && id < |s.items| && n <= |s.items[id].values|
    ensures Nth(s'.items[id].values, n) == Nth(s.items[id].values, n)
  {
    assert Follows(s, s', id);
    var a, b := s.items[id].values, s'.items[id].values;
    if n > 0 { assert b[n - 1] == b[..|a|][n - 1]; }
  }

  /** The abstract phases after a step of `t`, from `t`'s own. */
  lemma PhasesOf(w: World, s: State, s': State, t: Tid)
    requires Inv(w, s) && |s'.calls| == |s.calls| && t < |s.calls| && Grows(s, s')
    requires forall u :: 0 <= u < |s.calls| && u != t ==> s'.calls[u] == s.calls[u]
    ensures forall u :: 0 <= u < |s.calls| && u != t ==> Abs(s').phases[u] == Abs(s).phases[u]
  {
    forall u | 0 <= u < |s.calls| && u != t ensures Abs(s').phases[u] == Abs(s).phases[u] {
      PhaseStable(w, s, s', u);
    }
  }

  /** A step that changes neither the book nor the phase of its thread is invisible. */
  lemma Invisible(w: World, s: State, s': State, t: Tid)
    requires Inv(w, s) && |s'.calls| == |s.calls| && t < |s.calls| && Grows(s, s')
    requires forall u :: 0 <= u < |s.calls| && u != t ==> s'.calls[u] == s.calls[u]
    requires BookOf(s'.items) == BookOf(s.items)
    requires PhaseOf(s'.items, s'.calls[t]) == PhaseOf(s.items, s.calls[t])
    ensures Abs(s') == Abs(s)
  {
    PhasesOf(w, s, s', t);
    assert Abs(s').phases == Abs(s).phases;
  }

  /** A step at which the call of `t` takes effect. */
  lemma Visible(w: World, s: State, s': State, t: Tid)
    requires Inv(w, s) && |s'.calls| == |s.calls| && t < |s.calls| && Grows(s, s')
    requires forall u :: 0 <= u < |s.calls| && u != t ==> s'.calls[u] == s.calls[u]
    requires var p, p' := PhaseOf(s.items, s.calls[t]), PhaseOf(s'.items, s'.calls[t]);
      p.Pending? && p'.Answered? && p'.op == p.op &&
      Effect(w, p.op, BookOf(s.items), p'.answer, BookOf(s'.items))
    ensures AtomicStep(w, Abs(s), Abs(s'), t)
  {
    PhasesOf(w, s, s', t);
  }

  // ----- set_config ----------------------------------------------------------------------

  lemma SetBook(w: World, s: State, t: Tid, ch: Choice, s': State)
    requires BrokerInv(w, s) && SetEnabled(w, s, t, ch) && !s.calls[t].pc.Bump? && s' == SetStep(w, s, t, ch)
    ensures BookOf(s'.items) == BookOf(s.items)
  {
    SetItems(w, s, t, ch, s');
    BookKept(s, s');
  }

  lemma SetItems(w: World, s: State, t: Tid, ch: Choice, s': State)
    requires SetEnabled(w, s, t, ch) && !s.calls[t].pc.Bump? && s' == SetStep(w, s, t, ch)
    ensures |s'.items| == |s.items|
    ensures forall i :: 0 <= i < |s.items| ==> SameEntry(s.items[i], s'.items[i])
  {
    var id := s.calls[t].id;
    assert s'.items == s.items[id := s'.items[id]];
    assert SameEntry(s.items[id], s'.items[id]);
  }

  /** Steps of set_config before or after it takes effect. */
  lemma SetQuiet(w: World, s: State, t: Tid, ch: Choice, s': State)
    requires Inv(w, s) && SetEnabled(w, s, t, ch) && !s.calls[t].pc.Bump? && s' == SetStep(w, s, t, ch)
    requires PhaseOf(s.items, s.calls[t]) == PhaseOf(s.items, s'.calls[t])
    ensures Abs(s') == Abs(s)
  {
    SetGrows(w, s, t, ch);
    SetBook(w, s, t, ch, s');
    SetPhase(w, s, t, ch, s');
    Invisible(w, s, s', t);
  }

  lemma SetPhase(w: World, s: State, t: Tid, ch: Choice, s': State)
    requires SetEnabled(w, s, t, ch) && s' == SetStep(w, s, t, ch)
    ensures |s'.calls| == |s.calls| && forall u :: 0 <= u < |s.calls| && u != t ==> s'.calls[u] == s.calls[u]
    ensures PhaseOf(s'.items, s'.calls[t]) == PhaseOf(s.items, s'.calls[t])
  {}

  /** A failing return: the book stays as it is. */
  lemma SetFails(w: World, s: State, t: Tid, ch: Choice, s': State, code: Code)
    requires Inv(w, s) && SetEnabled(w, s, t, ch) && s' == SetStep(w, s, t, ch)
    requires s'.calls[t] == Working(s.calls[t].op, s.calls[t].id, Exit(code))
    requires match s.calls[t].pc
      case CheckParser => code == ENODEV && !s.items[s.calls[t].id].parser
      case CheckRate(_) => code == EBUSY
      case Allocate => code == ENOMEM
      case Discard(_) => code == EINVAL
      case _ => false
    ensures AtomicStep(w, Abs(s), Abs(s'), t)
  {
    SetGrows(w, s, t, ch);
    SetBook(w, s, t, ch, s');
    SetPhase(w, s, t, ch, s');
    FailEffect(w, s, t, code);
    Visible(w, s, s', t);
  }

  lemma FailEffect(w: World, s: State, t: Tid, code: Code)
    requires BrokerInv(w, s) && t < |s.calls| && s.calls[t].Working? && s.calls[t].op.Set? && s.calls[t].id < |s.items|
    requires match s.calls[t].pc
      case CheckParser => code == ENODEV && !s.items[s.calls[t].id].parser
      case CheckRate(_) => code == EBUSY
      case Allocate => code == ENOMEM
      case Discard(_) => code == EINVAL
      case _ => false
    ensures Effect(w, s.calls[t].op, BookOf(s.items), Done(code), BookOf(s.items))
  {
    assert ThreadOk(w, s, t);
    LookupAt(s, s.calls[t].id);
  }

  /** The one successful return: the version bump. */
  lemma SetSucceeds(w: World, s: State, t: Tid, ch: Choice, s': State)
    requires Inv(w, s) && SetEnabled(w, s, t, ch) && s.calls[t].pc.Bump? && s' == SetStep(w, s, t, ch)
    ensures AtomicStep(w, Abs(s), Abs(s'), t)
  {
    SetGrows(w, s, t, ch);
    SetPhase(w, s, t, ch, s');
    BumpEffect(w, s, t, ch, s');
    BumpPhase(w, s, t, ch, s');
    Visible(w, s, s', t);
  }

  lemma BumpPhase(w: World, s: State, t: Tid, ch: Choice, s': State)
    requires SetEnabled(w, s, t, ch) && s.calls[t].pc.Bump? && s' == SetStep(w, s, t, ch)
    ensures PhaseOf(s.items, s.calls[t]) == Pending(s.calls[t].op)
    ensures PhaseOf(s'.items, s'.calls[t]) == Answered(s.calls[t].op, Done(OK))
  {}

  lemma BumpEffect(w: World, s: State, t: Tid, ch: Choice, s': State)
    requires BrokerInv(w, s) && SetEnabled(w, s, t, ch) && s.calls[t].pc.Bump? && s' == SetStep(w, s, t, ch)
    ensures Effect(w, s.calls[t].op, BookOf(s.items), Done(OK), BookOf(s'.items))
  {
    var id, v := s.calls[t].id, s.heap[s.calls[t].pc.obj].bytes;
    SetKeeps(w, s, t, ch);
    assert ThreadOk(w, s, t);
    LookupAt(s, id);
    BookPut(s, s', id);
    assert BookOf(s'.items) == BookOf(s.items)[s.items[id].name := Entry(s.items[id].values + [v], true)];
  }

  lemma SetRefines(w: World, s: State, t: Tid, ch: Choice, s': State)
    requires Inv(w, s) && SetEnabled(w, s, t, ch) && s' == SetStep(w, s, t, ch)
    ensures AtomicNext(w, Abs(s), Abs(s'))
  {
    if s.calls[t].pc.Bump? {
      SetSucceeds(w, s, t, ch, s');
    } else {
      if PhaseOf(s.items, s.calls[t]) == PhaseOf(s.items, s'.calls[t]) {
        SetQuiet(w, s, t, ch, s');
      } else {
        SetCases(w, s, t, ch, s');
        SetFails(w, s, t, ch, s', s'.calls[t].pc.code);
      }
    }
  }

  /** A step of set_config that is seen from outside, other than the bump, fails it. */
  lemma SetCases(w: World, s: State, t: Tid, ch: Choice, s': State)
    requires SetEnabled(w, s, t, ch) && !s.calls[t].pc.Bump? && s' == SetStep(w, s, t, ch)
    requires PhaseOf(s.items, s.calls[t]) != PhaseOf(s.items, s'.calls[t])
    ensures s'.calls[t].Working? && s'.calls[t].pc.Exit?
    ensures s'.calls[t] == Working(s.calls[t].op, s.calls[t].id, Exit(s'.calls[t].pc.code))
    ensures match s.calls[t].pc
      case CheckParser => s'.calls[t].pc.code == ENODEV && !s.items[s.calls[t].id].parser
      case CheckRate(_) => s'.calls[t].pc.code == EBUSY
      case Allocate => s'.calls[t].pc.code == ENOMEM
      case Discard(_) => s'.calls[t].pc.code == EINVAL
      case _ => false
  {}

  // ----- the other entry points -------------------------------------------------------------

  lemma LockRefines(w: World, s: State, t: Tid, s': State)
    requires Inv(w, s) && LockEnabled(s, t) && s' == LockStep(s, t)
    ensures Abs(s') == Abs(s)
  {
    LockGrows(w, s, t);
    LockQuiet(s, t, s');
    Invisible(w, s, s', t);
  }

  lemma LockQuiet(s: State, t: Tid, s': State)
    requires Names(s) && LockEnabled(s, t) && s' == LockStep(s, t)
    ensures BookOf(s'.items) == BookOf(s.items)
    ensures PhaseOf(s'.items, s'.calls[t]) == PhaseOf(s.items, s.calls[t])
  {
    BookKept(s, s');
  }

  lemma GetRefines(w: World, s: State, t: Tid, s': State)
    requires Inv(w, s) && GetEnabled(s, t) && s' == GetStep(s, t)
    ensures AtomicNext(w, Abs(s), Abs(s'))
  {
    GetGrows(w, s, t);
    GetBook(s, t, s');
    GetPhase(s, t, s');
    if s.calls[t].pc.ReadVersion? {
      GetEffect(w, s, t);
      Visible(w, s, s', t);
    } else {
      Invisible(w, s, s', t);
    }
  }

  lemma GetBook(s: State, t: Tid, s': State)
    requires Names(s) && GetEnabled(s, t) && s' == GetStep(s, t)
    ensures BookOf(s'.items) == BookOf(s.items)
  {
    GetItems(s, t, s');
    BookKept(s, s');
  }

  lemma GetPhase(s: State, t: Tid, s': State)
    requires GetEnabled(s, t) && s' == GetStep(s, t)
    ensures var it, op := s.items[s.calls[t].id], s.calls[t].op;
      if s.calls[t].pc.ReadVersion? then
        PhaseOf(s'.items, s'.calls[t]) == Answered(op, Value(it.version, Nth(it.values, |it.values|)))
      else PhaseOf(s'.items, s'.calls[t]) == PhaseOf(s.items, s.calls[t])
  {}

  lemma GetItems(s: State, t: Tid, s': State)
    requires GetEnabled(s, t) && s' == GetStep(s, t)
    ensures |s'.items| == |s.items| && forall i :: 0 <= i < |s.items| ==> SameEntry(s.items[i], s'.items[i])
  {}

  /** get_config takes effect when it reads the version. */
  lemma GetEffect(w: World, s: State, t: Tid)
    requires BrokerInv(w, s) && GetEnabled(s, t) && s.calls[t].pc.ReadVersion?
    ensures var it := s.items[s.calls[t].id];
      s.calls[t].op.Get? &&
      Effect(w, s.calls[t].op, BookOf(s.items), Value(it.version, Nth(it.values, |it.values|)), BookOf(s.items))
  {
    assert ThreadOk(w, s, t) && ItemOk(w, s, s.calls[t].id);
    LookupAt(s, s.calls[t].id);
  }

  lemma RegisterRefines(w: World, s: State, t: Tid, s': State)
    requires Inv(w, s) && RegisterEnabled(w, s, t) && s' == RegisterStep(w, s, t)
    ensures AtomicNext(w, Abs(s), Abs(s'))
  {
    RegisterGrows(w, s, t, s');
    assert ThreadOk(w, s, t);
    if s.calls[t].pc.WriteParser? {
      RegisterEffect(w, s, t, s');
      Visible(w, s, s', t);
    } else {
      RegisterQuiet(w, s, t, s');
      Invisible(w, s, s', t);
    }
  }

  lemma RegisterGrows(w: World, s: State, t: Tid, s': State)
    requires Inv(w, s) && RegisterEnabled(w, s, t) && s' == RegisterStep(w, s, t)
    ensures Grows(s, s') && |s'.calls| == |s.calls|
    ensures forall u :: 0 <= u < |s.calls| && u != t ==> s'.calls[u] == s.calls[u]
  {
    RegisterOutside(w, s, t);
    OutsideGrows(w, s, s', t);
  }

  lemma LastStore(w: World, s: State, t: Tid, s': State)
    requires RegisterEnabled(w, s, t) && s' == RegisterStep(w, s, t) && s.calls[t].pc.WriteParser?
    ensures s'.items == s.items[s.calls[t].id := s.items[s.calls[t].id].(parser := true)]
    ensures s'.calls[t] == Returned(s.calls[t].op, Status(OK))
  {}

  /** set_parser takes effect with its last store. */
  lemma RegisterEffect(w: World, s: State, t: Tid, s': State)
    requires Names(s) && RegisterEnabled(w, s, t) && s' == RegisterStep(w, s, t) && s.calls[t].pc.WriteParser?
    requires Placed(s, t)
    ensures PhaseOf(s.items, s.calls[t]).Pending? && PhaseOf(s'.items, s'.calls[t]) == Answered(s.calls[t].op, Done(OK))
    ensures Effect(w, s.calls[t].op, BookOf(s.items), Done(OK), BookOf(s'.items))
  {
    LastStore(w, s, t, s');
    RegisterBook(s, s', s.calls[t].id);
  }

  lemma RegisterBook(s: State, s': State, id: Id)
    requires Names(s) && id < |s.items| && s'.items == s.items[id := s.items[id].(parser := true)]
    ensures var n := s.items[id].name;
      BookOf(s'.items) == BookOf(s.items)[n := Entry(BookOf(s.items)[n].values, true)]
  {
    LookupAt(s, id);
    BookPut(s, s', id);
  }

  lemma RegisterQuiet(w: World, s: State, t: Tid, s': State)
    requires Names(s) && RegisterEnabled(w, s, t) && s' == RegisterStep(w, s, t) && !s.calls[t].pc.WriteParser?
    ensures BookOf(s'.items) == BookOf(s.items)
    ensures PhaseOf(s'.items, s'.calls[t]) == PhaseOf(s.items, s.calls[t])
  {
    RegisterItems(w, s, t, s');
    BookKept(s, s');
  }

  lemma RegisterItems(w: World, s: State, t: Tid, s': State)
    requires RegisterEnabled(w, s, t) && s' == RegisterStep(w, s, t) && !s.calls[t].pc.WriteParser?
    ensures |s'.items| == |s.items| && forall i :: 0 <= i < |s.items| ==> SameEntry(s.items[i], s'.items[i])
    ensures s'.calls[t].Working? && !s'.calls[t].pc.Exit? && (s'.calls[t].pc.WriteTicks? || s'.calls[t].pc.WriteParser?)
    ensures s'.calls[t].op == s.calls[t].op
  {}

  lemma UnsealRefines(w: World, s: State, t: Tid, s': State)
    requires Inv(w, s) && UnsealEnabled(s, t) && s' == UnsealStep(s, t)
    ensures AtomicNext(w, Abs(s), Abs(s'))
  {
    OutsideGrows(w, s, s', t);
    if Unseals(s.calls[t].op) { Invisible(w, s, s', t); } else { Visible(w, s, s', t); }
  }

  lemma FindRefines(w: World, s: State, t: Tid, ch: Choice, s': State)
    requires Inv(w, s) && FindEnabled(s, t) && s' == FindStep(s, t, ch)
    ensures AtomicNext(w, Abs(s), Abs(s'))
  {
    FindOutside(w, s, t, ch);
    OutsideGrows(w, s, s', t);
    FindBook(w, s, t, ch, s');
    FindPhase(w, s, t, ch, s');
    if s.calls[t].fpc.Searching? && s'.calls[t].fpc == Leaving(None) {
      Visible(w, s, s', t);
    } else {
      Invisible(w, s, s', t);
    }
  }

  /** A call that finds no memory for a new item takes effect on an untouched entry. */
  lemma FindPhase(w: World, s: State, t: Tid, ch: Choice, s': State)
    requires BrokerInv(w, s) && FindEnabled(s, t) && s' == FindStep(s, t, ch)
    ensures var op := s.calls[t].op;
      if s.calls[t].fpc.Searching? && s'.calls[t].fpc == Leaving(None) then
        Effect(w, op, BookOf(s.items), AnswerOf(s'.items, Refusal(op, ENOMEM)), BookOf(s.items))
      else PhaseOf(s'.items, s'.calls[t]) == PhaseOf(s.items, s.calls[t])
  {
    assert ThreadOk(w, s, t);
    assert BookOf(s.items)[s.calls[t].op.cap.name] == Lookup(s.items, s.calls[t].op.cap.name);
  }

  /** A new item is indistinguishable from a name never used. */
  lemma FindBook(w: World, s: State, t: Tid, ch: Choice, s': State)
    requires BrokerInv(w, s) && FindEnabled(s, t) && s' == FindStep(s, t, ch)
    ensures BookOf(s'.items) == BookOf(s.items)
  {
    if s.calls[t].fpc.Linking? {
      LinkOutside(w, s, t, ch);
      LinkBook(s, s', s.calls[t].op.cap.name);
    }
  }

  lemma LinkBook(s: State, s': State, n: Name)
    requires Names(s) && Names(s') && s'.items == s.items + [NewItem(n)]
    ensures BookOf(s'.items) == BookOf(s.items)
  {
    BookSame(s, s');
  }

  // ----- clients, the clock, the allocator -----------------------------------------------------

  lemma ClientRefines(w: World, s: State, st: Step, s': State)
    requires Inv(w, s) && Enabled(w, s, st) && (st.PlainIt? || st.LoopIt? || st.StatusIt?) && s' == Apply(w, s, st)
    ensures AtomicNext(w, Abs(s), Abs(s'))
  {
    var t := st.t;
    ClientGrows(w, s, st);
    ClientMoves(w, s, st, s');
    PhasesOf(w, s, s', t);
    if s'.calls[t] == s.calls[t] {
      Invisible(w, s, s', t);
    } else {
      assert AtomicStep(w, Abs(s), Abs(s'), t);
    }
  }

  lemma ClientMoves(w: World, s: State, st: Step, s': State)
    requires Inv(w, s) && Enabled(w, s, st) && (st.PlainIt? || st.LoopIt? || st.StatusIt?) && s' == Apply(w, s, st)
    ensures var c, c' := s.calls[st.t], s'.calls[st.t];
      c' == c || (c.Idle? && c'.Called?) || (c.Returned? && c'.Idle?)
  {
    assert ClientOk(w, s, st.t);
    match st
    case LoopIt(t, ch) => LoopMoves(s, t, ch, s');
    case StatusIt(t, ch) => StatusMoves(s, t, ch, s');
    case PlainIt(_, _) =>
  }

  predicate Moves(c: Call, c': Call) { c' == c || (c.Idle? && c'.Called?) || (c.Returned? && c'.Idle?) }

  lemma LoopMoves(s: State, t: Tid, ch: Choice, s': State)
    requires LoopEnabled(s, t, ch) && s' == LoopStep(s, t, ch)
    requires s.clients[t].lpc.Await? || s.calls[t].Idle?
    ensures t < |s'.calls| && Moves(s.calls[t], s'.calls[t])
  {}

  lemma StatusMoves(s: State, t: Tid, ch: Choice, s': State)
    requires StatusEnabled(s, t, ch) && s' == StatusStep(s, t, ch)
    ensures t < |s'.calls| && Moves(s.calls[t], s'.calls[t])
  {}

  /** Every step is invisible, or starts, performs or ends exactly one atomic call. */
  lemma NextRefines(w: World, s: State, s': State)
    requires Inv(w, s) && Next(w, s, s')
    ensures AtomicNext(w, Abs(s), Abs(s'))
  {
    var st :| Enabled(w, s, st) && s' == Apply(w, s, st);
    StepRefines(w, s, st, s');
  }

  lemma StepRefines(w: World, s: State, st: Step, s': State)
    requires Inv(w, s) && Enabled(w, s, st) && s' == Apply(w, s, st)
    ensures AtomicNext(w, Abs(s), Abs(s'))
  {
    match st
    case Tick(to) => assert Abs(s') == Abs(s);
    case Reclaim(o) => assert Abs(s') == Abs(s);
    case Unseal(t) => UnsealRefines(w, s, t, s');
    case FindIt(t, ch) => FindRefines(w, s, t, ch, s');
    case Lock(t) => LockRefines(w, s, t, s');
    case SetIt(t, ch) => SetRefines(w, s, t, ch, s');
    case GetIt(t) => GetRefines(w, s, t, s');
    case RegisterIt(t) => RegisterRefines(w, s, t, s');
    case PlainIt(t, ch) => ClientRefines(w, s, st, s');
    case LoopIt(t, ch) => ClientRefines(w, s, st, s');
    case StatusIt(t, ch) => ClientRefines(w, s, st, s');
  }

  /** Linearisability: the abstraction of a run is a run of the atomic book. */
  lemma RunRefines(w: World, tr: seq<State>)
    requires Run(w, tr)
    ensures AtomicInit(Abs(tr[0]))
    ensures forall k :: 0 < k < |tr| ==> AtomicNext(w, Abs(tr[k - 1]), Abs(tr[k]))
  {
    forall k | 0 < k < |tr| ensures AtomicNext(w, Abs(tr[k - 1]), Abs(tr[k])) {
      RunInv(w, tr, k - 1);
      NextRefines(w, tr[k - 1], tr[k]);
    }
  }

  /** The object that get_config hands out carries the abstract answer, for as long as it
      is live: null exactly when nothing has been published. */
  lemma ReplyCarries(w: World, tr: seq<State>, k: nat, t: Tid)
    requires Run(w, tr) && k < |tr| && t < |tr[k].calls|
    requires tr[k].calls[t].Returned? && tr[k].calls[t].reply.Found?
    ensures var s, r := tr[k], tr[k].calls[t].reply;
      r.version == r.count % U32 && r.id < |s.items| && r.count <= |s.items[r.id].values| &&
      Abs(s).phases[t] == Answered(s.calls[t].op, Value(r.version, Nth(s.items[r.id].values, r.count))) &&
      (r.data.None? <==> r.count == 0) &&
      (r.data.Some? && r.data.value in s.heap ==>
        Some(s.heap[r.data.value].bytes) == Nth(s.items[r.id].values, r.count))
  {
    RunInv(w, tr, k);
    assert ReplyOk(tr[k], t);
  }
}
