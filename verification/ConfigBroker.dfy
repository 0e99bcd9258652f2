/**
 config_broker.cc as it stands, run by one thread at a time: a linked list of item
 structures updated in place, and one heap buffer per published value.  Each entry point
 is held to the same atomic effect that the interleaved machine refines.
 */
module ConfigBroker {
  import opened Base
  import opened Machine
  import opened Atomic

  /** A registered parser callback: whether it returns 0, and what it leaves in the
      destination either way. */
  datatype Callback = Callback(run: Bytes -> Parse)
  datatype Parse = Parse(ok: bool, out: Bytes)

  /** InternalConfigitem.  `values` is history: the outputs of its successful parses. */
  class Node {
    const name: Name
    var version: nat
    var data: array?<byte>
    var size: nat
    var minTicks: nat
    var nextUpdate: nat
    var parser: Option<Callback>
    var next: Node?
    ghost var values: seq<Bytes>

    constructor (name: Name, next: Node?)
      ensures this.name == name && this.next == next && version == 0 && data == null && values == []
      ensures parser == None && nextUpdate == 0
    {
      this.name, this.next, version, data, parser := name, next, 0, null, None;
      nextUpdate, size, minTicks, values := 0, 0, 0, [];
    }
  }

  class Broker {
    var configData: Node?
    ghost const w: World
    ghost var nodes: seq<Node>           // the list, newest first
    ghost var owned: map<array<byte>, Node>  // buffers allocated and not freed, and for whom
    ghost var inFlight: array?<byte>         // the one not published yet

    ghost predicate Linked()
      reads this, nodes
    {
      (configData == if nodes == [] then null else nodes[0]) &&
      (forall i {:trigger nodes[i].next} :: 0 <= i < |nodes| - 1 ==> nodes[i].next == nodes[i + 1]) &&
      (nodes != [] ==> nodes[|nodes| - 1].next == null) &&
      (forall i, j :: 0 <= i < j < |nodes| ==> nodes[i].name != nodes[j].name)
    }

    ghost predicate NodeOk(n: Node)
      reads n, n.data
    {
      n.version == |n.values| % U32 &&
      (n.data == null <==> n.values == []) &&
      (n.data != null ==> n.data[..] == n.values[|n.values| - 1]) &&
      (n.parser.Some? ==> Registered(n.name, n.size, n.parser.value))
    }

    ghost predicate Registered(n: Name, size: nat, p: Callback) {
      n in w.tokens && size == w.tokens[n].size &&
      forall src :: |p.run(src).out| == size && (p.run(src).ok ==> w.tokens[n].parses(src, p.run(src).out))
    }

    /** The broker owns exactly the published buffers, each for its one item, and the one
        that a call is about to publish or discard. */
    ghost predicate Accounted()
      reads this, nodes
    {
      (forall n :: n in nodes && n.data != null ==> n.data != inFlight && n.data in owned && owned[n.data] == n) &&
      (forall b :: b in owned && b != inFlight ==> owned[b] in nodes && owned[b].data == b) &&
      (inFlight != null ==> inFlight in owned && owned[inFlight] in nodes)
    }

    ghost predicate Valid()
      reads this, nodes, owned.Keys
    {
      Linked() && Accounted() && forall n :: n in nodes ==> (n.data != null ==> n.data in owned) && NodeOk(n)
    }

    /** Between calls nothing is in flight. */
    ghost predicate AtRest()
      reads this, nodes, owned.Keys
    {
      Valid() && inFlight == null
    }

    /** What the list says, as values. */
    ghost function View(): (v: seq<Named>)
      reads this, nodes
      ensures |v| == |nodes|
    {
      seq(|nodes|, i requires 0 <= i < |nodes| reads this, nodes =>
        Named(nodes[i].name, Entry(nodes[i].values, nodes[i].parser.Some?)))
    }

    ghost function Book(): Book
      reads this, nodes
    {
      BookOfList(View())
    }

    constructor (ghost w: World)
      ensures AtRest() && nodes == [] && owned == map[] && this.w == w
      ensures forall n :: Book()[n] == Entry([], false)
    {
      configData := null;
      this.w, nodes, owned, inFlight := w, [], map[], null;
    }

    /** The loop of find_or_create_config. */
    method Search(name: Name) returns (c: Node?)
      requires Linked()
      ensures c == null <==> forall i :: 0 <= i < |nodes| ==> nodes[i].name != name
      ensures c != null ==> c in nodes && c.name == name
    {
      c := configData;
      ghost var i := 0;
      while c != null
        invariant 0 <= i <= |nodes|
        invariant c == if i < |nodes| then nodes[i] else null
        invariant forall j :: 0 <= j < i ==> nodes[j].name != name
        decreases |nodes| - i
      {
        if c.name == name { return; }
        c := c.next;
        i := i + 1;
      }
    }

    /** find_or_create_config: an existing item, or a new one at the head of the list. */
    method FindOrCreate(name: Name, memory: bool) returns (c: Node?)
      requires AtRest()
      modifies this`configData, this`nodes
      ensures AtRest() && Book() == old(Book())
      ensures (exists i :: 0 <= i < |old(nodes)| && old(nodes)[i].name == name) || !memory ==> nodes == old(nodes)
      ensures nodes != old(nodes) ==> nodes == [c] + old(nodes) && fresh(c)
      ensures c != null ==> c in nodes && c.name == name
      ensures c !in old(nodes) ==> forall i :: 0 <= i < |old(nodes)| ==> old(nodes)[i].name != name
      ensures c != null && c !in old(nodes) ==> memory && c.parser == None
      ensures c == null ==> !memory && forall i :: 0 <= i < |nodes| ==> nodes[i].name != name
    {
      c := Search(name);
      if c == null && memory {
        c := new Node(name, configData);
        Prepend(c);
      }
    }

    /** Linking a new structure in front of the list. */
    method Prepend(c: Node)
      requires AtRest() && c !in nodes && c.next == configData
      requires forall i :: 0 <= i < |nodes| ==> nodes[i].name != c.name
      requires c.version == 0 && c.data == null && c.values == [] && c.parser == None
      modifies this`configData, this`nodes
      ensures AtRest() && nodes == [c] + old(nodes) && Book() == old(Book())
    {
      configData := c;
      nodes := [c] + nodes;
      PrependLinked(c);
      PrependOk(c);
      assert View() == [Named(c.name, Entry([], false))] + old(View());
      ListCons(old(View()), c.name);
    }

    twostate lemma PrependLinked(c: Node)
      requires old(Linked()) && nodes == [c] + old(nodes) && configData == c && c.next == old(configData)
      requires forall n :: n in old(nodes) ==> n.next == old(n.next) && n.name != c.name
      ensures Linked()
    {
      forall i | 0 <= i < |nodes| - 1 ensures nodes[i].next == nodes[i + 1] {
        assert i > 0 ==> nodes[i] == old(nodes)[i - 1];
      }
    }

    twostate lemma PrependOk(c: Node)
      requires old(Valid()) && nodes == [c] + old(nodes) && owned == old(owned) && c !in old(nodes)
      requires inFlight == old(inFlight)
      requires forall n :: n in old(nodes) ==> unchanged(n)
      requires forall b :: b in owned ==> unchanged(b)
      requires c.data == null && NodeOk(c)
      ensures Accounted() && forall n :: n in nodes ==> NodeOk(n)
    {
      forall n | n in nodes ensures NodeOk(n) {
        if n != c { assert old(NodeOk(n)); }
      }
    }

    /** When only item `c` changed, and it is in order, so is the whole list. */
    twostate lemma OnlyOne(c: Node)
      requires old(Valid()) && c in old(nodes) && nodes == old(nodes) && configData == old(configData)
      requires forall i :: 0 <= i < |nodes| ==> nodes[i] == c || unchanged(nodes[i])
      requires forall b :: b in old(owned) ==> unchanged(b)
      requires c.next == old(c.next) && NodeOk(c) && Accounted()
      ensures Valid()
      ensures Book() == old(Book())[c.name := Entry(c.values, c.parser.Some?)]
    {
      OnlyLinked(c);
      OnlyView(c);
      forall n | n in nodes ensures NodeOk(n) {
        var i :| 0 <= i < |nodes| && nodes[i] == n;
        if n != c { assert old(NodeOk(n)); }
      }
    }

    twostate lemma OnlyLinked(c: Node)
      requires old(Linked()) && nodes == old(nodes) && configData == old(configData)
      requires forall i :: 0 <= i < |nodes| ==> nodes[i] == c || unchanged(nodes[i])
      requires c.next == old(c.next)
      ensures Linked()
    {
      forall i | 0 <= i < |nodes| - 1 ensures nodes[i].next == nodes[i + 1] {
        assert nodes[i].next == old(nodes[i].next);
      }
      if nodes != [] { assert nodes[|nodes| - 1].next == old(nodes[|nodes| - 1].next); }
    }

    twostate lemma OnlyView(c: Node)
      requires old(Linked()) && c in old(nodes) && nodes == old(nodes)
      requires forall i :: 0 <= i < |nodes| ==> nodes[i] == c || unchanged(nodes[i])
      ensures Book() == old(Book())[c.name := Entry(c.values, c.parser.Some?)]
    {
      var i :| 0 <= i < |nodes| && nodes[i] == c;
      forall j | 0 <= j < |nodes| && j != i ensures View()[j] == old(View())[j] {
        assert nodes[j].name != c.name;
      }
      assert View() == old(View())[i := Named(c.name, Entry(c.values, c.parser.Some?))];
      ListPut(old(View()), i, Entry(c.values, c.parser.Some?));
    }

    /** get_config.  The futex pointer is the structure itself. */
    method GetConfig(cap: Cap, memory: bool) returns (futex: Node?, version: nat, data: array?<byte>)
      requires AtRest()
      modifies this
      ensures AtRest() && owned == old(owned)
      ensures futex == null ==> version == 0 && data == null
      ensures futex == null <==>
        !Unseals(Get(cap)) || (!memory && forall i :: 0 <= i < |old(nodes)| ==> old(nodes)[i].name != cap.name)
      ensures futex != null ==> Unseals(Get(cap)) && futex in nodes && futex.name == cap.name && futex.data == data
      ensures Effect(w, Get(cap), old(Book()),
        if futex == null then Nothing else Value(version, if data == null then None else Some(data[..])), Book())
    {
      futex, version, data := null, 0, null;
      if !Unseals(Get(cap)) { return; }
      futex := FindOrCreate(cap.name, memory);
      if futex == null {
        Missing(cap.name);
        return;
      }
      version, data := futex.version, futex.data;
      Present(futex);
    }

    /** set_parser: the token's size and interval, then the callback. */
    method SetParser(cap: Cap, token: Token, p: Callback, memory: bool)
      returns (code: int, ghost item: Node?)
      requires AtRest()
      requires Unseals(Machine.Register(cap)) ==> cap.name in w.tokens && token == w.tokens[cap.name]
      requires Unseals(Machine.Register(cap)) ==> Registered(cap.name, token.size, p)
      modifies this, nodes
      ensures AtRest() && owned == old(owned) && code in {0, -1}
      ensures Effect(w, Machine.Register(cap), old(Book()), Done(if code == 0 then OK else Failed), Book())
      // what the next attempt on that name will go by
      ensures code == 0 ==> item in nodes && item.name == cap.name && Installed(item, token, p)
    {
      if !Unseals(Machine.Register(cap)) { return -1, null; }
      var c := FindOrCreate(cap.name, memory);
      if c == null {
        Missing(cap.name);
        return -1, null;
      }
      Present(c);
      Install(c, token, p);
      return 0, c;
    }

    ghost predicate Installed(c: Node, token: Token, p: Callback)
      reads c
    {
      c.size == token.size && c.minTicks == token.minTicks && c.parser == Some(p)
    }

    method Install(c: Node, token: Token, p: Callback)
      requires AtRest() && c in nodes && Registered(c.name, token.size, p)
      modifies c`size, c`minTicks, c`parser
      ensures AtRest() && Book() == old(Book())[c.name := Entry(c.values, true)]
      ensures Installed(c, token, p)
    {
      c.size := token.size;
      c.minTicks := token.minTicks;
      c.parser := Some(p);
      OnlyOne(c);
    }

    lemma Missing(n: Name)
      requires forall i :: 0 <= i < |nodes| ==> nodes[i].name != n
      ensures Book()[n] == Entry([], false)
    {
      EntryMissing(View(), n);
    }

    lemma Present(c: Node)
      requires Linked() && c in nodes
      ensures Book()[c.name] == Entry(c.values, c.parser.Some?)
    {
      var i :| 0 <= i < |nodes| && nodes[i] == c;
      EntryAt(View(), i);
    }

    /** set_config, and the structure it worked on. */
    method SetConfig(cap: Cap, src: Bytes, tick: nat, memory: bool, room: bool)
      returns (code: Code, ghost item: Node?)
      requires AtRest()
      modifies this, nodes
      ensures AtRest()
      ensures Effect(w, Set(cap, src), old(Book()), Done(code), Book())
      // which return is taken, for an item that exists and for one that does not
      ensures item in old(nodes) ==>
        Unseals(Set(cap, src)) && item.name == cap.name && Judged(item, src, tick, room, code)
      ensures item !in old(nodes) && Unseals(Set(cap, src)) ==>
        (forall i :: 0 <= i < |old(nodes)| ==> old(nodes)[i].name != cap.name) &&
        code == if memory then ENODEV else ENOMEM
    {
      item := null;
      if !Unseals(Set(cap, src)) { return EPERM, null; }
      var c := FindOrCreate(cap.name, memory);
      item := c;
      if c == null {
        Missing(cap.name);
        return ENOMEM, null;
      }
      code := SetFound(c, cap, src, tick, room);
    }

    method SetFound(c: Node, cap: Cap, src: Bytes, tick: nat, room: bool) returns (code: Code)
      requires AtRest() && c in nodes && Unseals(Set(cap, src)) && cap.name == c.name
      modifies c`nextUpdate, c`data, c`version, c`values, this`owned, this`inFlight
      ensures AtRest() && Judged(c, src, tick, room, code)
      ensures Effect(w, Set(cap, src), old(Book()), Done(code), Book())
    {
      Present(c);
      assert NodeOk(c);
      ghost var v := if c.parser.Some? then c.parser.value.run(src).out else [];
      code := Update(c, src, tick, room);
      Lawful(w, cap, src, old(Book()), code, v, Book());
    }

    /** What an attempt does to its item: which return is taken, that the deadline moves with
        every attempt that is let through and no other, and that the buffer is replaced, by
        a fresh one, on success only. */
    twostate predicate Judged(c: Node, src: Bytes, tick: nat, room: bool, code: Code)
      reads c, c.data
    {
      code == Verdict(old(c.parser), old(c.nextUpdate), src, tick, room) &&
      c.nextUpdate == (if code == ENODEV || code == EBUSY then old(c.nextUpdate) else Until(tick, old(c.minTicks))) &&
      if code == OK then c.data != null && fresh(c.data) && c.data[..] == old(c.parser).value.run(src).out
      else c.data == old(c.data)
    }

    /** The locked part of set_config. */
    method Update(c: Node, src: Bytes, tick: nat, room: bool) returns (code: Code)
      requires AtRest() && c in nodes
      modifies c`nextUpdate, c`data, c`version, c`values, this`owned, this`inFlight
      ensures AtRest() && Judged(c, src, tick, room, code)
      ensures Book() == if code != OK then old(Book())
        else old(Book())[c.name := Entry(old(c.values) + [c.parser.value.run(src).out], true)]
    {
      code := Admit(c, tick);
      if code != OK { return; }
      if !room { return ENOMEM; }
      var ok := Renew(c, c.parser.value, src);
      code := if ok then OK else EINVAL;
    }

    /** The checks before anything is allocated; OK lets the attempt through. */
    method Admit(c: Node, tick: nat) returns (code: Code)
      requires AtRest() && c in nodes
      modifies c`nextUpdate
      ensures AtRest() && Book() == old(Book())
      ensures code == if c.parser == None then ENODEV else if tick < old(c.nextUpdate) then EBUSY else OK
      ensures c.nextUpdate == if code == OK then Until(tick, c.minTicks) else old(c.nextUpdate)
    {
      if c.parser == None { return ENODEV; }
      if c.nextUpdate > 0 && tick < c.nextUpdate { return EBUSY; }
      Postpone(c, tick);
      return OK;
    }

    method Postpone(c: Node, tick: nat)
      requires AtRest() && c in nodes
      modifies c`nextUpdate
      ensures AtRest() && Book() == old(Book()) && c.nextUpdate == Until(tick, c.minTicks)
    {
      Present(c);
      c.nextUpdate := Until(tick, c.minTicks);
      OnlyOne(c);
    }

    /** Allocating a buffer, parsing into it, and publishing or freeing it. */
    method Renew(c: Node, p: Callback, src: Bytes) returns (ok: bool)
      requires AtRest() && c in nodes && c.parser == Some(p)
      modifies c`data, c`version, c`values, this`owned, this`inFlight
      ensures AtRest() && ok == p.run(src).ok
      ensures if ok then c.data != null && fresh(c.data) && c.data[..] == p.run(src).out
              else c.data == old(c.data) && owned == old(owned)
      ensures Book() == if !ok then old(Book())
        else old(Book())[c.name := Entry(old(c.values) + [p.run(src).out], true)]
    {
      var newData;
      ok, newData := ParseInto(c, p, src);
      if ok {
        Replace(c, newData);
      } else {
        Removed(old(owned), newData, c);
        Discard(newData);
      }
    }

    /** malloc and the parser's stores; whatever it left there, nobody else can see it. */
    method ParseInto(c: Node, p: Callback, src: Bytes) returns (ok: bool, newData: array<byte>)
      requires AtRest() && c in nodes && c.parser == Some(p)
      modifies this`owned, this`inFlight
      ensures Valid() && fresh(newData) && inFlight == newData && newData !in old(owned)
      ensures owned == old(owned)[newData := c] && Book() == old(Book())
      ensures ok == p.run(src).ok && newData[..] == p.run(src).out
    {
      assert NodeOk(c);
      ok, newData := RunParser(p, c.size, src);
      owned, inFlight := owned[newData := c], newData;
      Taken(c, newData);
    }

    twostate lemma SameView()
      requires nodes == old(nodes) && forall i :: 0 <= i < |nodes| ==> unchanged(nodes[i])
      ensures View() == old(View())
    {
      assert forall i :: 0 <= i < |nodes| ==> View()[i] == old(View())[i];
    }

    twostate lemma Taken(c: Node, new a: array<byte>)
      requires old(AtRest()) && c in nodes && nodes == old(nodes) && configData == old(configData)
      requires forall i :: 0 <= i < |nodes| ==> unchanged(nodes[i])
      requires forall b :: b in old(owned) ==> unchanged(b)
      requires a !in old(owned) && owned == old(owned)[a := c] && inFlight == a
      ensures Valid() && View() == old(View())
    {
      forall i | 0 <= i < |nodes| ensures nodes[i].next == old(nodes[i].next) {}
      forall n | n in nodes ensures NodeOk(n) {
        var i :| 0 <= i < |nodes| && nodes[i] == n;
        assert old(NodeOk(n));
      }
      SameView();
    }

    method Discard(newData: array<byte>)
      requires Valid() && inFlight == newData
      modifies this`owned, this`inFlight
      ensures AtRest() && owned == old(owned) - {newData} && Book() == old(Book())
    {
      owned, inFlight := owned - {newData}, null;
      Dropped(newData);
    }

    twostate lemma Dropped(a: array<byte>)
      requires old(Valid()) && nodes == old(nodes) && configData == old(configData)
      requires forall i :: 0 <= i < |nodes| ==> unchanged(nodes[i])
      requires forall b :: b in old(owned) ==> unchanged(b)
      requires old(inFlight) == a && inFlight == null && owned == old(owned) - {a}
      ensures AtRest() && View() == old(View())
    {
      forall i | 0 <= i < |nodes| ensures nodes[i].next == old(nodes[i].next) {}
      forall n | n in nodes ensures NodeOk(n) {
        var i :| 0 <= i < |nodes| && nodes[i] == n;
        assert old(NodeOk(n));
      }
      SameView();
    }

    /** Storing the new buffer, counting it, and freeing the previous one. */
    method Replace(c: Node, newData: array<byte>)
      requires Valid() && c in nodes && inFlight == newData && owned[newData] == c
      modifies c`data, c`version, c`values, this`owned, this`inFlight
      ensures AtRest() && c.data == newData
      ensures Book() == old(Book())[c.name := Entry(old(c.values) + [newData[..]], c.parser.Some?)]
    {
      var oldData := c.data;
      c.data := newData;
      c.version := (c.version + 1) % U32;
      c.values := c.values + [newData[..]];
      inFlight := null;
      if oldData != null { owned := owned - {oldData}; }
      assert NodeOk(c) by { ReplacedOk(c, newData); }
      assert Accounted() by { SwapAccounted(c, newData); }
      OnlyOne(c);
    }

    twostate lemma ReplacedOk(c: Node, new a: array<byte>)
      requires old(NodeOk(c)) && c.data == a && c.values == old(c.values) + [a[..]]
      requires c.version == (old(c.version) + 1) % U32 && c.parser == old(c.parser) && c.size == old(c.size)
      ensures NodeOk(c)
    {
      CountBumped(|old(c.values)|);
    }

    /** The new buffer is published and the previous one, if any, is freed. */
    twostate lemma SwapAccounted(c: Node, new a: array<byte>)
      requires old(Accounted()) && nodes == old(nodes) && c in nodes
      requires a == old(inFlight) && old(owned)[a] == c && c.data == a && inFlight == null
      requires owned == if old(c.data) == null then old(owned) else old(owned) - {old(c.data)}
      requires forall n :: n in nodes && n != c ==> n.data == old(n.data)
      ensures Accounted()
    {}
  }

  lemma Removed(m: map<array<byte>, Node>, a: array<byte>, c: Node)
    requires a !in m
    ensures m[a := c] - {a} == m
  {}

  /** A buffer of the registered size, with what the parser stores into it. */
  method RunParser(p: Callback, size: nat, src: Bytes) returns (ok: bool, a: array<byte>)
    requires |p.run(src).out| == size
    ensures fresh(a) && ok == p.run(src).ok && a[..] == p.run(src).out
  {
    a := new byte[size](_ => 0);
    var r := p.run(src);
    forall i | 0 <= i < a.Length { a[i] := r.out[i]; }
    ok := r.ok;
  }

  /** The effect of the locked part on the book is the atomic one. */
  lemma Lawful(w: World, cap: Cap, src: Bytes, a: Book, code: Code, v: Bytes, b: Book)
    requires Unseals(Set(cap, src)) && code != EPERM && code != Failed
    requires code == ENODEV <==> !a[cap.name].registered
    requires code == OK ==> cap.name in w.tokens && |v| == w.tokens[cap.name].size && w.tokens[cap.name].parses(src, v)
    requires b == if code == OK then a[cap.name := Entry(a[cap.name].values + [v], true)] else a
    ensures Effect(w, Set(cap, src), a, Done(code), b)
  {}

  /** A deadline is a 64-bit number. */
  function Until(tick: nat, interval: nat): nat { (tick + interval) % U64 }

  /** The returns behind the item lock, first match first. */
  function Verdict(p: Option<Callback>, nextUpdate: nat, src: Bytes, tick: nat, room: bool): Code {
    if p == None then ENODEV
    else if tick < nextUpdate then EBUSY
    else if !room then ENOMEM
    else if !p.value.run(src).ok then EINVAL
    else OK
  }

  /** Each return has its own reason, and there is no other. */
  lemma VerdictExactly(p: Option<Callback>, nextUpdate: nat, src: Bytes, tick: nat, room: bool)
    ensures var code := Verdict(p, nextUpdate, src, tick, room);
      (code == ENODEV <==> p.None?) &&
      (code == EBUSY <==> p.Some? && tick < nextUpdate) &&
      (code == ENOMEM <==> p.Some? && tick >= nextUpdate && !room) &&
      (code == EINVAL <==> p.Some? && tick >= nextUpdate && room && !p.value.run(src).ok) &&
      (code == OK <==> p.Some? && tick >= nextUpdate && room && p.value.run(src).ok)
  {}

  /** The deadline is one interval after the attempt, in 64 bits. */
  lemma UntilExactly(tick: nat, interval: nat)
    ensures 0 <= Until(tick, interval) < U64 && (tick + interval - Until(tick, interval)) % U64 == 0
    ensures tick + interval < U64 ==> Until(tick, interval) - tick == interval
  {}

  // ----- the list as a map ---------------------------------------------------------

  datatype Named = Named(name: Name, entry: Entry)

  predicate Distinct(v: seq<Named>) {
    forall i, j :: 0 <= i < j < |v| ==> v[i].name != v[j].name
  }

  function EntryIn(v: seq<Named>, n: Name): Entry {
    if v == [] then Entry([], false) else if v[0].name == n then v[0].entry else EntryIn(v[1..], n)
  }

  ghost function BookOfList(v: seq<Named>): Book {
    imap n: Name :: EntryIn(v, n)
  }

  lemma {:induction false} EntryAt(v: seq<Named>, i: nat)
    requires Distinct(v) && i < |v|
    ensures EntryIn(v, v[i].name) == v[i].entry
  {
    if i > 0 { EntryAt(v[1..], i - 1); }
  }

  lemma {:induction false} EntryMissing(v: seq<Named>, n: Name)
    requires forall i :: 0 <= i < |v| ==> v[i].name != n
    ensures EntryIn(v, n) == Entry([], false)
  {
    if v != [] { EntryMissing(v[1..], n); }
  }

  /** Creating an item does not show. */
  lemma ListCons(v: seq<Named>, n: Name)
    requires forall i :: 0 <= i < |v| ==> v[i].name != n
    ensures BookOfList([Named(n, Entry([], false))] + v) == BookOfList(v)
  {
    var u := [Named(n, Entry([], false))] + v;
    assert u[1..] == v;
    EntryMissing(v, n);
    assert forall m: Name :: EntryIn(u, m) == EntryIn(v, m);
  }

  /** Updating an item shows at its name only. */
  lemma {:induction false} ListPut(v: seq<Named>, i: nat, e: Entry)
    requires Distinct(v) && i < |v|
    ensures BookOfList(v[i := Named(v[i].name, e)]) == BookOfList(v)[v[i].name := e]
  {
    forall m: Name ensures EntryIn(v[i := Named(v[i].name, e)], m) == if m == v[i].name then e else EntryIn(v, m) {
      EntryPut(v, i, e, m);
    }
  }

  lemma {:induction false} EntryPut(v: seq<Named>, i: nat, e: Entry, m: Name)
    requires Distinct(v) && i < |v|
    ensures EntryIn(v[i := Named(v[i].name, e)], m) == if m == v[i].name then e else EntryIn(v, m)
  {
    if i > 0 {
      assert v[i := Named(v[i].name, e)][1..] == v[1..][i - 1 := Named(v[i].name, e)];
      EntryPut(v[1..], i - 1, e, m);
    }
  }
}
