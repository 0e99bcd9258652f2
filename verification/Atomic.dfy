/**
 The broker as its callers are meant to see it: a book from names to published values,
 on which every call takes effect at one instant between its start and its return.
 */
module Atomic {
  import opened Base
  import opened Machine

  datatype Entry = Entry(values: seq<Bytes>, registered: bool)

  /** Total: a name nobody has used yet has the empty entry. */
  type Book = b: imap<Name, Entry> | forall n: Name :: n in b ghost witness imap n: Name :: Entry([], false)

  datatype Answer = Done(code: Code) | Nothing | Value(version: nat, value: Option<Bytes>)

  datatype Phase = Free | Pending(op: Op) | Answered(op: Op, answer: Answer)

  datatype AState = AState(book: Book, phases: seq<Phase>)

  /** The n-th published value; none when n is 0. */
  function Nth(values: seq<Bytes>, n: nat): Option<Bytes> {
    if 0 < n <= |values| then Some(values[n - 1]) else None
  }

  /** The effect of one whole call. */
  ghost predicate Effect(w: World, op: Op, a: Book, answer: Answer, b: Book) {
    match op
    case Set(cap, src) =>
      if !Unseals(op) then answer == Done(EPERM) && b == a
      else
        var e := a[cap.name];
        (match answer
         case Done(OK) =>
           e.registered && cap.name in w.tokens &&
           exists v :: |v| == w.tokens[cap.name].size && w.tokens[cap.name].parses(src, v) &&
             b == a[cap.name := Entry(e.values + [v], true)]
         case Done(ENODEV) => !e.registered && b == a
         case Done(EBUSY) => e.registered && b == a
         case Done(EINVAL) => e.registered && b == a
         case Done(ENOMEM) => (e.registered || e == Entry([], false)) && b == a
         case _ => false)
    case Get(cap) =>
      b == a &&
      if !Unseals(op) then answer == Nothing
      else
        var e := a[cap.name];
        (answer == Nothing && e == Entry([], false)) ||
        answer == Value(|e.values| % U32, Nth(e.values, |e.values|))
    case Register(cap) =>
      if !Unseals(op) then answer == Done(Failed) && b == a
      else
        var e := a[cap.name];
        (answer == Done(Failed) && e == Entry([], false) && b == a) ||
        (answer == Done(OK) && b == a[cap.name := Entry(e.values, true)])
  }

  /** One thread starts a call, has it take effect, or returns from it. */
  ghost predicate AtomicStep(w: World, a: AState, b: AState, t: Tid) {
    t < |a.phases| == |b.phases| &&
    (forall u :: 0 <= u < |a.phases| && u != t ==> b.phases[u] == a.phases[u]) &&
    match a.phases[t]
    case Free => b.phases[t].Pending? && b.book == a.book
    case Pending(op) =>
      b.phases[t].Answered? && b.phases[t].op == op && Effect(w, op, a.book, b.phases[t].answer, b.book)
    case Answered(_, _) => b.phases[t].Free? && b.book == a.book
  }

  ghost predicate AtomicNext(w: World, a: AState, b: AState) {
    a == b || exists t :: AtomicStep(w, a, b, t)
  }

  ghost predicate AtomicInit(a: AState) {
    (forall n :: a.book[n] == Entry([], false)) && forall t :: 0 <= t < |a.phases| ==> a.phases[t].Free?
  }
}
