/**
 The configuration broker and its clients as one interleaved state machine.

 A thread has two parts: where it is inside a broker call (`Call`) and what it
 does between calls (`Client`).  Every step moves one thread by one access to
 shared state, except `Tick` (the clock) and `Reclaim` (the allocator).
 */
module Machine {
  import opened Base

  type Tid = nat
  type Id = nat    // an InternalConfigitem; its index in State.items
  type Obj = nat   // a heap allocation; never reused

  // ----- static configuration ------------------------------------------------

  /** What a parser capability registers: `parses(src, out)` says that the parser may
      return 0 on source `src` leaving `out` in the destination. */
  datatype Token = Token(size: nat, minTicks: nat, parses: (Bytes, Bytes) -> bool)

  /** One parser capability per name.  `minTicks` is a 32-bit field. */
  datatype World = World(tokens: map<Name, Token>) {
    predicate Ok() { forall n :: n in tokens ==> tokens[n].minTicks < U32 }
  }

  datatype Key = ReadKey | WriteKey | ParserKey
  datatype Cap = Forged | Sealed(key: Key, name: Name)
  datatype Op = Set(cap: Cap, src: Bytes) | Get(cap: Cap) | Register(cap: Cap)

  function KeyOf(op: Op): Key {
    match op case Set(_, _) => WriteKey case Get(_) => ReadKey case Register(_) => ParserKey
  }

  predicate Unseals(op: Op) { op.cap.Sealed? && op.cap.key == KeyOf(op) }

  /** A successful parse of an item called `n`. */
  ghost predicate Parsed(w: World, n: Name, v: Bytes) {
    n in w.tokens && |v| == w.tokens[n].size && exists src :: w.tokens[n].parses(src, v)
  }

  // ----- state ---------------------------------------------------------------

  /** `values` (outputs of the successful parses, oldest first) and `passes` (clock
      readings that got past the rate limit) are history; the rest is the C++ struct. */
  datatype Item = Item(name: Name, version: nat, data: Option<Obj>, size: nat, minTicks: nat,
                       nextUpdate: nat, parser: bool, lock: Option<Tid>,
                       values: seq<Bytes>, passes: seq<nat>)

  /** `frozen` holds once the parser that could write the buffer has returned 0. */
  datatype Object = Object(item: Id, bytes: Bytes, frozen: bool)

  datatype Owner = Broker | Handler(t: Tid, slot: nat)
  datatype Claim = Claim(owner: Owner, obj: Obj)

  datatype Code = OK | EPERM | ENOMEM | ENODEV | EBUSY | EINVAL | Failed

  datatype Reply =
    | Status(code: Code)
    | NoItem
    | Found(id: Id, version: nat, count: nat, data: Option<Obj>)

  datatype FindPc = WantList | Searching | Linking | Leaving(found: Option<Id>)

  datatype WorkPc =
    | WantItem
    // set_config, item lock held
    | CheckParser | ReadTick | CheckRate(tick: nat) | Allocate
    | Parsing(obj: Obj) | Discard(obj: Obj) | Store(obj: Obj)
    | Bump(obj: Obj, prev: Option<Obj>) | Notify(prev: Option<Obj>) | FreeOld(prev: Option<Obj>)
    | Exit(code: Code)
    // get_config, item lock held
    | ReadVersion | ReadData(version: nat, count: nat) | Leave(version: nat, count: nat, data: Option<Obj>)
    // set_parser, no lock
    | WriteSize | WriteTicks | WriteParser

  datatype Call =
    | Idle
    | Called(op: Op)
    | Finding(op: Op, fpc: FindPc)
    | Working(op: Op, id: Id, pc: WorkPc)
    | Returned(op: Op, reply: Reply)

  /** One ConfigConsumer::ConfigItem.  `keeps` selects a handler that keeps a claim
      (logger_handler) rather than one that only reads (led_handler); `held` is that
      handler's static pointer.  The rest is history: how many values had been published
      when the item was read, when a handler was last called, and when `held` was last
      stored; whether the last heap_claim returned 0; and whether the handler owns what
      `held` names, which it does not after a negative result. */
  datatype Watch = Watch(cap: Cap, keeps: bool, version: nat, futex: Option<Id>, held: Option<Obj>,
                         seen: nat, delivered: nat, kept: nat, refused: bool, sound: bool)

  datatype LoopPc =
    | Scan(i: nat, fired: seq<bool>)
    | Await(i: nat, fired: seq<bool>)
    | Ephemeral(i: nat, fired: seq<bool>, obj: Obj)
    | Handling(i: nat, fired: seq<bool>, obj: Obj)            // ephemeral claim held
    | Keeping(i: nat, fired: seq<bool>, obj: Obj)             // heap_claim called
    | Swap(i: nat, fired: seq<bool>, obj: Obj, granted: bool) // it did not return 0
    | Release(i: nat, fired: seq<bool>, prev: Option<Obj>, had: bool)
    | Blocked(wakes: set<Id>)
    | Exited

  datatype StatusPc = Rest | Fetch | Secure(obj: Obj) | Compare(obj: Obj) | Adopt(obj: Obj)

  /** `Loop` is ConfigConsumer::run, `Provider` is update_status with its statics; `seen`,
      `taken` and `refused` are history: the counts at the last recorded version and at the
      last store to `config`, and whether the last claim failed. */
  datatype Client =
    | Plain
    | Loop(watch: seq<Watch>, lpc: LoopPc)
    | Provider(cap: Cap, version: nat, config: Option<Obj>, seen: nat, taken: nat, refused: bool, spc: StatusPc)

  datatype State = State(items: seq<Item>, listLock: Option<Tid>,
                         heap: map<Obj, Object>, nextObj: nat, claims: multiset<Claim>,
                         calls: seq<Call>, clients: seq<Client>, now: nat)

  // ----- the item list -------------------------------------------------------

  function NewItem(n: Name): Item {
    Item(n, 0, None, 0, 0, 0, false, None, [], [])
  }

  /** The search loop of find_or_create_config: newest item first. */
  function FindItem(items: seq<Item>, n: Name): (r: Option<Id>)
    ensures r.Some? ==> r.value < |items| && items[r.value].name == n
    ensures r.None? <==> forall i :: 0 <= i < |items| ==> items[i].name != n
  {
    if items == [] then None
    else if items[|items| - 1].name == n then Some(|items| - 1)
    else
      var r := FindItem(items[..|items| - 1], n);
      assert items == items[..|items| - 1] + [items[|items| - 1]];
      r
  }

  // ----- projections of a call -----------------------------------------------

  predicate HoldsItem(c: Call) {
    c.Working? && !(c.pc.WantItem? || c.pc.WriteSize? || c.pc.WriteTicks? || c.pc.WriteParser?)
  }

  predicate HoldsList(c: Call) { c.Finding? && !c.fpc.WantList? }

  /** The object, other than the published one, that a setter is responsible for. */
  function InFlight(c: Call): Option<Obj> {
    if !c.Working? then None
    else match c.pc
      case Parsing(o) => Some(o) case Discard(o) => Some(o) case Store(o) => Some(o)
      case Bump(_, prev) => prev case Notify(prev) => prev case FreeOld(prev) => prev
      case _ => None
  }

  /** The call of the thread that holds the lock of item `id`. */
  function HolderCall(s: State, id: Id): Call {
    if id < |s.items| && s.items[id].lock.Some? && s.items[id].lock.value < |s.calls|
    then s.calls[s.items[id].lock.value] else Idle
  }

  /** The object holding the latest counted value: between the data store and the
      version bump that is still the old one. */
  function Current(s: State, id: Id): Option<Obj>
    requires id < |s.items|
  {
    var c := HolderCall(s, id);
    if c.Working? && c.pc.Bump? then c.pc.prev else s.items[id].data
  }

  /** A setter of `id` is between its version bump and its notify_all. */
  predicate Notifying(s: State, id: Id) {
    var c := HolderCall(s, id);
    c.Working? && c.pc.Notify? && c.id == id
  }

  predicate Claimed(s: State, o: Obj) {
    exists c :: c in s.claims && c.obj == o
  }

  predicate Hazard(s: State, o: Obj) {
    exists t :: 0 <= t < |s.clients| && s.clients[t].Loop? &&
      s.clients[t].lpc.Handling? && s.clients[t].lpc.obj == o
  }

  // ----- broker steps --------------------------------------------------------

  /** `Fail` makes an allocation, parse, claim or wait fail; `Error` is a heap_claim with a
      negative result; `Write` is one store by the parser into its destination. */
  datatype Choice = Go | Fail | Error | Write(bytes: Bytes) | Wake(fired: seq<bool>) | Invoke(op: Op)

  function Goto(s: State, t: Tid, c: Call): State
    requires t < |s.calls|
  {
    s.(calls := s.calls[t := c])
  }

  function Put(s: State, id: Id, it: Item): State
    requires id < |s.items|
  {
    s.(items := s.items[id := it])
  }

  function NotifyAll(clients: seq<Client>, id: Id): seq<Client> {
    seq(|clients|, t requires 0 <= t < |clients| => Notified(clients[t], id))
  }

  function Notified(c: Client, id: Id): Client {
    if c.Loop? && c.lpc.Blocked? && (exists i :: 0 <= i < |c.watch| && c.watch[i].futex == Some(id))
    then c.(lpc := Blocked(c.lpc.wakes + {id})) else c
  }

  function FindStep(s: State, t: Tid, ch: Choice): State
    requires t < |s.calls| && s.calls[t].Finding? && s.calls[t].op.cap.Sealed?
  {
    var op := s.calls[t].op;
    match s.calls[t].fpc
    case WantList => Goto(s, t, Finding(op, Searching)).(listLock := Some(t))
    case Searching =>
      var r := FindItem(s.items, op.cap.name);
      Goto(s, t, Finding(op, if r.None? && !ch.Fail? then Linking else Leaving(r)))
    case Linking =>
      Goto(s, t, Finding(op, Leaving(Some(|s.items|)))).(items := s.items + [NewItem(op.cap.name)])
    case Leaving(r) =>
      Goto(s, t,
        if r.None? then Returned(op, Refusal(op, ENOMEM))
        else Working(op, r.value, if op.Register? then WriteSize else WantItem)).(listLock := None)
  }

  /** The early error return of each entry point. */
  function Refusal(op: Op, code: Code): Reply {
    match op case Set(_, _) => Status(code) case Get(_) => NoItem case Register(_) => Status(Failed)
  }

  predicate FindEnabled(s: State, t: Tid) {
    t < |s.calls| && s.calls[t].Finding? && s.calls[t].op.cap.Sealed? &&
    (s.calls[t].fpc.WantList? ==> s.listLock.None?)
  }

  /** set_config from the lock to the return; also the lock acquisition of get_config. */
  function SetStep(w: World, s: State, t: Tid, ch: Choice): State
    requires SetEnabled(w, s, t, ch)
  {
    var op, id := s.calls[t].op, s.calls[t].id;
    var it := s.items[id];
    match s.calls[t].pc
    case CheckParser => Goto(s, t, Working(op, id, if it.parser then ReadTick else Exit(ENODEV)))
    case ReadTick => Goto(s, t, Working(op, id, CheckRate(s.now)))
    case CheckRate(tick) =>
      if it.nextUpdate > 0 && tick < it.nextUpdate then Goto(s, t, Working(op, id, Exit(EBUSY)))
      else
        Goto(Put(s, id, it.(nextUpdate := (tick + it.minTicks) % U64, passes := it.passes + [tick])),
             t, Working(op, id, Allocate))
    case Allocate =>
      if ch.Fail? then Goto(s, t, Working(op, id, Exit(ENOMEM)))
      else
        Goto(s, t, Working(op, id, Parsing(s.nextObj))).(
          heap := s.heap[s.nextObj := Object(id, seq(it.size, _ => 0), false)],
          nextObj := s.nextObj + 1,
          claims := s.claims + multiset{Claim(Broker, s.nextObj)})
    case Parsing(o) =>
      (match ch
       case Write(b) => s.(heap := s.heap[o := s.heap[o].(bytes := b)])
       case Go => Goto(s, t, Working(op, id, Store(o))).(heap := s.heap[o := s.heap[o].(frozen := true)])
       case _ => Goto(s, t, Working(op, id, Discard(o))))
    case Discard(o) =>
      Goto(s, t, Working(op, id, Exit(EINVAL))).(claims := s.claims - multiset{Claim(Broker, o)})
    case Store(o) => Goto(Put(s, id, it.(data := Some(o))), t, Working(op, id, Bump(o, it.data)))
    case Bump(o, prev) =>
      Goto(Put(s, id, it.(version := (it.version + 1) % U32, values := it.values + [s.heap[o].bytes])),
           t, Working(op, id, Notify(prev)))
    case Notify(prev) => Goto(s, t, Working(op, id, FreeOld(prev))).(clients := NotifyAll(s.clients, id))
    case FreeOld(prev) =>
      Goto(s, t, Working(op, id, Exit(OK))).(
        claims := if prev.Some? then s.claims - multiset{Claim(Broker, prev.value)} else s.claims)
    case Exit(code) => Goto(Put(s, id, it.(lock := None)), t, Returned(op, Status(code)))
    case _ => s
  }

  predicate SetEnabled(w: World, s: State, t: Tid, ch: Choice) {
    t < |s.calls| && s.calls[t].Working? && s.calls[t].op.Set? && s.calls[t].op.cap.Sealed? &&
    s.calls[t].id < |s.items| &&
    match s.calls[t].pc
    case Parsing(o) =>
      o in s.heap && s.items[s.calls[t].id].name in w.tokens &&
      (ch.Write? ==> |ch.bytes| == |s.heap[o].bytes|) &&
      (ch.Go? ==> w.tokens[s.items[s.calls[t].id].name].parses(s.calls[t].op.src, s.heap[o].bytes))
    case Bump(o, _) => o in s.heap
    // free of something the broker no longer owns would be an error
    case Discard(o) => Claim(Broker, o) in s.claims
    case FreeOld(prev) => prev.Some? ==> Claim(Broker, prev.value) in s.claims
    case CheckParser => true case ReadTick => true case CheckRate(_) => true case Allocate => true
    case Store(_) => true case Notify(_) => true case Exit(_) => true
    case _ => false
  }

  function LockStep(s: State, t: Tid): State
    requires LockEnabled(s, t)
  {
    var op, id := s.calls[t].op, s.calls[t].id;
    Goto(Put(s, id, s.items[id].(lock := Some(t))), t,
         Working(op, id, if op.Set? then CheckParser else ReadVersion))
  }

  predicate LockEnabled(s: State, t: Tid) {
    t < |s.calls| && s.calls[t].Working? && s.calls[t].pc.WantItem? &&
    s.calls[t].id < |s.items| && s.items[s.calls[t].id].lock.None?
  }

  /** The locked part of get_config. */
  function GetStep(s: State, t: Tid): State
    requires GetEnabled(s, t)
  {
    var op, id := s.calls[t].op, s.calls[t].id;
    var it := s.items[id];
    match s.calls[t].pc
    case ReadVersion => Goto(s, t, Working(op, id, ReadData(it.version, |it.values|)))
    case ReadData(v, n) => Goto(s, t, Working(op, id, Leave(v, n, it.data)))
    case Leave(v, n, d) => Goto(Put(s, id, it.(lock := None)), t, Returned(op, Found(id, v, n, d)))
    case _ => s
  }

  predicate GetEnabled(s: State, t: Tid) {
    t < |s.calls| && s.calls[t].Working? && s.calls[t].id < |s.items| &&
    (s.calls[t].pc.ReadVersion? || s.calls[t].pc.ReadData? || s.calls[t].pc.Leave?)
  }

  /** set_parser after the item is found: three stores, no item lock. */
  function RegisterStep(w: World, s: State, t: Tid): State
    requires RegisterEnabled(w, s, t)
  {
    var op, id := s.calls[t].op, s.calls[t].id;
    var it, token := s.items[id], w.tokens[op.cap.name];
    match s.calls[t].pc
    case WriteSize => Goto(Put(s, id, it.(size := token.size)), t, Working(op, id, WriteTicks))
    case WriteTicks => Goto(Put(s, id, it.(minTicks := token.minTicks)), t, Working(op, id, WriteParser))
    case WriteParser => Goto(Put(s, id, it.(parser := true)), t, Returned(op, Status(OK)))
    case _ => s
  }

  predicate RegisterEnabled(w: World, s: State, t: Tid) {
    t < |s.calls| && s.calls[t].Working? && s.calls[t].id < |s.items| &&
    s.calls[t].op.cap.Sealed? && s.calls[t].op.cap.name in w.tokens &&
    (s.calls[t].pc.WriteSize? || s.calls[t].pc.WriteTicks? || s.calls[t].pc.WriteParser?)
  }

  function UnsealStep(s: State, t: Tid): State
    requires UnsealEnabled(s, t)
  {
    var op := s.calls[t].op;
    Goto(s, t, if Unseals(op) then Finding(op, WantList) else Returned(op, Refusal(op, EPERM)))
  }

  predicate UnsealEnabled(s: State, t: Tid) { t < |s.calls| && s.calls[t].Called? }

  // ----- client steps --------------------------------------------------------

  function Become(s: State, t: Tid, c: Client): State
    requires t < |s.clients|
  {
    s.(clients := s.clients[t := c])
  }

  /** A thread outside both loops makes calls and drops their results. */
  function PlainStep(s: State, t: Tid, ch: Choice): State
    requires PlainEnabled(s, t, ch)
  {
    Goto(s, t, if s.calls[t].Idle? then Called(ch.op) else Idle)
  }

  predicate PlainEnabled(s: State, t: Tid, ch: Choice) {
    t < |s.calls| == |s.clients| && s.clients[t].Plain? &&
    (s.calls[t].Returned? || (s.calls[t].Idle? && ch.Invoke?))
  }

  /** The compare half of multiwaiter_wait: which futexes have moved already. */
  function Moved(s: State, watch: seq<Watch>): seq<bool>
    requires Futexes(s, watch)
  {
    seq(|watch|, i requires 0 <= i < |watch| =>
      s.items[watch[i].futex.value].version != watch[i].version)
  }

  predicate Futexes(s: State, watch: seq<Watch>) {
    forall i :: 0 <= i < |watch| ==> watch[i].futex.Some? && watch[i].futex.value < |s.items|
  }

  function Fired(watch: seq<Watch>, wakes: set<Id>): seq<bool> {
    seq(|watch|, i requires 0 <= i < |watch| => watch[i].futex.Some? && watch[i].futex.value in wakes)
  }

  /** The state after the loop of ConfigConsumer::run reaches its wait.  With a null futex
      the wait returns an error at once and leaves the event values unspecified. */
  function WaitPc(s: State, watch: seq<Watch>, ch: Choice): LoopPc {
    if Futexes(s, watch) then
      if true in Moved(s, watch) then Scan(0, Moved(s, watch)) else Blocked({})
    else if ch.Wake? && |ch.fired| == |watch| then Scan(0, ch.fired)
    else Scan(0, seq(|watch|, _ => false))
  }

  function ReadWatch(wt: Watch, r: Reply): Watch
    requires r.Found?
  {
    wt.(version := r.version, futex := Some(r.id), seen := r.count)
  }

  /** Freeing the previous pointer gives up the claim on it, be it the old or the new one. */
  predicate StillSound(wt: Watch, prev: Option<Obj>, had: bool) {
    wt.sound && (prev.None? || had || prev != wt.held)
  }

  function LoopStep(s: State, t: Tid, ch: Choice): State
    requires LoopEnabled(s, t, ch)
  {
    var watch := s.clients[t].watch;
    match s.clients[t].lpc
    case Scan(i, fired) =>
      if i >= |watch| then Become(s, t, Loop(watch, WaitPc(s, watch, ch)))
      else if !fired[i] then Become(s, t, Loop(watch, Scan(i + 1, fired)))
      else Goto(Become(s, t, Loop(watch, Await(i, fired))), t, Called(Get(watch[i].cap)))
    case Await(i, fired) =>
      var r := s.calls[t].reply;
      var s' := Goto(s, t, Idle);
      if !r.Found? then Become(s', t, Loop(watch, Scan(i + 1, fired)))
      else
        Become(s', t, Loop(watch[i := ReadWatch(watch[i], r)],
          if r.data.None? then Scan(i + 1, fired) else Ephemeral(i, fired, r.data.value)))
    case Ephemeral(i, fired, o) =>
      if ch.Fail? then Become(s, t, Loop(watch, Scan(i + 1, fired)))
      else Become(s, t, Loop(watch[i := watch[i].(delivered := watch[i].seen)], Handling(i, fired, o)))
    case Handling(i, fired, o) =>
      Become(s, t, Loop(watch, if watch[i].keeps then Keeping(i, fired, o) else Scan(i + 1, fired)))
    case Keeping(i, fired, o) =>
      // logger_handler goes on unless the result is exactly 0
      if ch.Fail? then Become(s, t, Loop(watch[i := watch[i].(refused := true)], Scan(i + 1, fired)))
      else
        Become(s, t, Loop(watch[i := watch[i].(refused := false)], Swap(i, fired, o, !ch.Error?))).(
          claims := if ch.Error? then s.claims else s.claims + multiset{Claim(Handler(t, i), o)})
    case Swap(i, fired, o, granted) =>
      Become(s, t, Loop(watch[i := watch[i].(held := Some(o), kept := watch[i].seen, sound := granted)],
                        Release(i, fired, watch[i].held, watch[i].sound)))
    case Release(i, fired, prev, had) =>
      // free of an object that the caller does not own does nothing
      Become(s, t, Loop(watch[i := watch[i].(sound := StillSound(watch[i], prev, had))], Scan(i + 1, fired))).(
        claims := if prev.Some? then s.claims - multiset{Claim(Handler(t, i), prev.value)} else s.claims)
    case Blocked(wakes) =>
      // a timeout (no wake) clears every event, or ends the thread after maxTimeouts of them
      Become(s, t, Loop(watch, if ch.Fail? && wakes == {} then Exited else Scan(0, Fired(watch, wakes))))
    case Exited => s
  }

  predicate LoopEnabled(s: State, t: Tid, ch: Choice) {
    t < |s.calls| == |s.clients| && s.clients[t].Loop? &&
    match s.clients[t].lpc
    case Scan(i, fired) => |fired| == |s.clients[t].watch|
    case Await(i, _) => i < |s.clients[t].watch| && s.calls[t].Returned?
    // an ephemeral claim fails only on an object nobody owns, and succeeds only on one
    // whose memory has not been reclaimed
    case Ephemeral(i, _, o) => i < |s.clients[t].watch| && (if ch.Fail? then !Claimed(s, o) else o in s.heap)
    case Handling(i, _, _) => i < |s.clients[t].watch|
    // a full claim may also fail for lack of quota, or with an error
    case Keeping(i, _, o) => i < |s.clients[t].watch| && (ch.Fail? || ch.Error? || o in s.heap)
    case Swap(i, _, _, _) => i < |s.clients[t].watch|
    case Release(i, _, _, _) => i < |s.clients[t].watch|
    case Blocked(_) => true
    case Exited => false
  }

  /** update_status up to the point where the topics are rebuilt. */
  function StatusStep(s: State, t: Tid, ch: Choice): State
    requires StatusEnabled(s, t, ch)
  {
    var c := s.clients[t];
    match c.spc
    case Rest => Goto(Become(s, t, c.(spc := Fetch)), t, Called(Get(c.cap)))
    case Fetch =>
      var r := s.calls[t].reply;
      var s' := Goto(s, t, Idle);
      if !r.Found? || r.data.None? || r.version == c.version then Become(s', t, c.(spc := Rest))
      else Become(s', t, c.(version := r.version, seen := r.count, spc := Secure(r.data.value)))
    case Secure(o) =>
      if ch.Fail? || ch.Error? then Become(s, t, c.(refused := true, spc := Rest))
      else Become(s, t, c.(refused := false, spc := Compare(o))).(
             claims := s.claims + multiset{Claim(Handler(t, 0), o)})
    case Compare(o) =>
      Become(s, t, c.(spc := Adopt(o))).(
        claims := if c.config.Some? then s.claims - multiset{Claim(Handler(t, 0), c.config.value)} else s.claims)
    case Adopt(o) => Become(s, t, c.(config := Some(o), taken := c.seen, spc := Rest))
  }

  predicate StatusEnabled(s: State, t: Tid, ch: Choice) {
    t < |s.calls| == |s.clients| && s.clients[t].Provider? &&
    match s.clients[t].spc
    case Rest => s.calls[t].Idle?
    case Fetch => s.calls[t].Returned?
    case Secure(o) => ch.Fail? || ch.Error? || o in s.heap
    case Compare(o) =>
      s.clients[t].config.Some? ==> Claim(Handler(t, 0), s.clients[t].config.value) in s.claims
    case Adopt(_) => true
  }

  // ----- the whole machine ---------------------------------------------------

  datatype Step =
    | Tick(to: nat)
    | Reclaim(o: Obj)
    | Unseal(t: Tid)
    | FindIt(t: Tid, ch: Choice)
    | Lock(t: Tid)
    | SetIt(t: Tid, ch: Choice)
    | GetIt(t: Tid)
    | RegisterIt(t: Tid)
    | PlainIt(t: Tid, ch: Choice)
    | LoopIt(t: Tid, ch: Choice)
    | StatusIt(t: Tid, ch: Choice)

  predicate Enabled(w: World, s: State, st: Step) {
    match st
    case Tick(to) => s.now <= to
    case Reclaim(o) => o in s.heap && !Claimed(s, o) && !Hazard(s, o)
    case Unseal(t) => UnsealEnabled(s, t)
    case FindIt(t, _) => FindEnabled(s, t)
    case Lock(t) => LockEnabled(s, t)
    case SetIt(t, ch) => SetEnabled(w, s, t, ch)
    case GetIt(t) => GetEnabled(s, t)
    case RegisterIt(t) => RegisterEnabled(w, s, t)
    case PlainIt(t, ch) => PlainEnabled(s, t, ch)
    case LoopIt(t, ch) => LoopEnabled(s, t, ch)
    case StatusIt(t, ch) => StatusEnabled(s, t, ch)
  }

  function Apply(w: World, s: State, st: Step): State
    requires Enabled(w, s, st)
  {
    match st
    case Tick(to) => s.(now := to)
    case Reclaim(o) => s.(heap := s.heap - {o})
    case Unseal(t) => UnsealStep(s, t)
    case FindIt(t, ch) => FindStep(s, t, ch)
    case Lock(t) => LockStep(s, t)
    case SetIt(t, ch) => SetStep(w, s, t, ch)
    case GetIt(t) => GetStep(s, t)
    case RegisterIt(t) => RegisterStep(w, s, t)
    case PlainIt(t, ch) => PlainStep(s, t, ch)
    case LoopIt(t, ch) => LoopStep(s, t, ch)
    case StatusIt(t, ch) => StatusStep(s, t, ch)
  }

  /** `Register` is only possible with a name that has a token: sealed parser capabilities
      are static objects that carry theirs. */
  ghost predicate Sensible(w: World, op: Op) {
    op.Register? && Unseals(op) ==> op.cap.name in w.tokens
  }

  predicate Fresh(c: Client) {
    match c
    case Plain => true
    case Loop(watch, lpc) =>
      lpc == Scan(0, seq(|watch|, _ => true)) &&
      forall i :: 0 <= i < |watch| ==>
        watch[i] == Watch(watch[i].cap, watch[i].keeps, 0, None, None, 0, 0, 0, false, true)
    case Provider(_, v, config, seen, taken, refused, spc) =>
      v == 0 && config.None? && seen == 0 && taken == 0 && !refused && spc.Rest?
  }

  predicate Init(s: State) {
    s.items == [] && s.listLock.None? && s.heap == map[] && s.claims == multiset{} &&
    |s.calls| == |s.clients| &&
    (forall t :: 0 <= t < |s.calls| ==> s.calls[t].Idle?) &&
    (forall t :: 0 <= t < |s.clients| ==> Fresh(s.clients[t]))
  }

  ghost predicate Next(w: World, s: State, s': State) {
    exists st :: Enabled(w, s, st) && (st.PlainIt? && st.ch.Invoke? ==> Sensible(w, st.ch.op)) &&
      s' == Apply(w, s, st)
  }

  /** A finite run of the system from its initial state. */
  ghost predicate Run(w: World, tr: seq<State>) {
    w.Ok() && |tr| > 0 && Init(tr[0]) &&
    forall j, k {:trigger Next(w, tr[j], tr[k])} :: 0 <= j && k == j + 1 < |tr| ==> Next(w, tr[j], tr[k])
  }
}
