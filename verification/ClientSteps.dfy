/** Steps of the two client loops between their calls preserve the whole invariant. */
module ClientSteps {
  import opened Base
  import opened Machine
  import opened Invariant
  import opened Preservation
  import opened Growth
  import opened Clients

  // ----- steps of a client between calls ---------------------------------------------

  /** Client `t` moves: at most its own call slot and its own handlers' claims change. */
  ghost predicate InClient(s: State, s': State, t: Tid)
    requires t < |s.calls| == |s.clients|
  {
    s'.items == s.items && s'.heap == s.heap && s'.nextObj == s.nextObj && s'.now == s.now &&
    |s'.calls| == |s.calls| && |s'.clients| == |s.clients| &&
    !HoldsItem(s.calls[t]) && !HoldsItem(s'.calls[t]) &&
    (forall u :: 0 <= u < |s.calls| && u != t ==> s'.calls[u] == s.calls[u] && s'.clients[u] == s.clients[u]) &&
    (forall x: Tid, i: nat, o: Obj :: x != t ==>
      s'.claims[Claim(Handler(x, i), o)] == s.claims[Claim(Handler(x, i), o)])
  }

  lemma InClientKeeps(w: World, s: State, s': State, t: Tid)
    requires Inv(w, s) && t < |s.calls| && InClient(s, s', t) && BrokerInv(w, s')
    requires ClientOk(w, s', t) && ReplyOk(s', t)
    requires forall i: nat, o: Obj :: s'.claims[Claim(Handler(t, i), o)] == SlotOf(s'.clients[t], i, o)
    ensures Inv(w, s')
  {
    InClientGrows(w, s, s', t);
    forall u | 0 <= u < |s.calls| && u != t ensures ClientOk(w, s', u) && ReplyOk(s', u) {
      assert ClientOk(w, s, u) && ReplyOk(s, u);
      ClientStable(w, s, s', u);
      ReplyStable(s, s', u);
    }
    forall x: Tid, i: nat, o: Obj ensures s'.claims[Claim(Handler(x, i), o)] == Slot(s', x, i, o) {
      assert s.claims[Claim(Handler(x, i), o)] == Slot(s, x, i, o);
    }
  }

  lemma InClientGrows(w: World, s: State, s': State, t: Tid)
    requires BrokerInv(w, s) && t < |s.calls| == |s.clients| && InClient(s, s', t)
    ensures Grows(s, s')
    ensures forall u :: 0 <= u < |s.clients| ==> Alerts(s, s', u)
  {
    forall i | 0 <= i < |s.items| ensures Follows(s, s', i) && Notifying(s', i) == Notifying(s, i) {
      assert LockOk(s, i) && HolderCall(s', i) == HolderCall(s, i);
    }
  }

  lemma PlainInv(w: World, s: State, t: Tid, ch: Choice)
    requires Inv(w, s) && PlainEnabled(s, t, ch) && (ch.Invoke? ==> Sensible(w, ch.op))
    ensures Inv(w, PlainStep(s, t, ch))
  {
    var s' := PlainStep(s, t, ch);
    CallKeeps(w, s, t, s'.calls[t]);
    forall i: nat, o: Obj ensures s'.claims[Claim(Handler(t, i), o)] == SlotOf(s'.clients[t], i, o) {
      assert s.claims[Claim(Handler(t, i), o)] == Slot(s, t, i, o);
    }
    InClientKeeps(w, s, s', t);
  }

  /** A client step that takes or releases no claim. */
  lemma UnclaimedInv(w: World, s: State, c: Call, client: Client, t: Tid)
    requires Inv(w, s) && t < |s.calls| && !HoldsItem(s.calls[t]) && !HoldsItem(c)
    requires var s' := Become(Goto(s, t, c), t, client);
      ClientOk(w, s', t) && ReplyOk(s', t)
    requires c == s.calls[t] ||
      ((s.calls[t].Idle? || s.calls[t].Returned?) && (c.Idle? || (c.Called? && Sensible(w, c.op))))
    requires forall i: nat, o: Obj :: SlotOf(client, i, o) == SlotOf(s.clients[t], i, o)
    ensures Inv(w, Become(Goto(s, t, c), t, client))
  {
    var s1 := Goto(s, t, c);
    var s' := Become(s1, t, client);
    if c == s.calls[t] { assert s1 == s; } else { CallKeeps(w, s, t, c); }
    Unrelated(w, s1, s1.clients[t := client], s.now);
    assert s' == s1.(clients := s1.clients[t := client], now := s.now);
    forall i: nat, o: Obj ensures s'.claims[Claim(Handler(t, i), o)] == SlotOf(s'.clients[t], i, o) {
      assert s.claims[Claim(Handler(t, i), o)] == Slot(s, t, i, o);
    }
    InClientKeeps(w, s, s', t);
  }

  // ----- ConfigConsumer::run ----------------------------------------------------------

  /** A client step that leaves its call alone too. */
  lemma StayInv(w: World, s: State, t: Tid, client: Client)
    requires Inv(w, s) && t < |s.calls| && !HoldsItem(s.calls[t])
    requires ClientOk(w, Become(s, t, client), t) && ReplyOk(Become(s, t, client), t)
    requires forall i: nat, o: Obj :: SlotOf(client, i, o) == SlotOf(s.clients[t], i, o)
    ensures Inv(w, Become(s, t, client))
  {
    assert s.calls[t := s.calls[t]] == s.calls;
    UnclaimedInv(w, s, s.calls[t], client, t);
  }

  lemma ScanInv(w: World, s: State, t: Tid, ch: Choice)
    requires Inv(w, s) && LoopEnabled(s, t, ch) && s.clients[t].lpc.Scan?
    requires s.clients[t].lpc.i < |s.clients[t].watch|
    ensures Inv(w, LoopStep(s, t, ch))
  {
    var s' := LoopStep(s, t, ch);
    assert ClientOk(w, s, t) && ReplyOk(s, t);
    assert s.calls[t := s.calls[t]] == s.calls;
    UnclaimedInv(w, s, s'.calls[t], s'.clients[t], t);
  }

  /** multiwaiter_wait blocks only when no futex has moved. */
  lemma WaitInv(w: World, s: State, t: Tid, ch: Choice)
    requires Inv(w, s) && LoopEnabled(s, t, ch) && s.clients[t].lpc.Scan?
    requires s.clients[t].lpc.i >= |s.clients[t].watch|
    ensures Inv(w, LoopStep(s, t, ch))
  {
    var s', watch := LoopStep(s, t, ch), s.clients[t].watch;
    assert ClientOk(w, s, t) && ReplyOk(s, t);
    if s'.clients[t].lpc.Blocked? {
      forall i | 0 <= i < |watch| ensures Armed(s', watch[i], {}) {
        assert Moved(s, watch)[i] in Moved(s, watch);
      }
    }
    StayInv(w, s, t, s'.clients[t]);
  }

  lemma AwaitInv(w: World, s: State, t: Tid, ch: Choice)
    requires Inv(w, s) && LoopEnabled(s, t, ch) && s.clients[t].lpc.Await?
    ensures Inv(w, LoopStep(s, t, ch))
  {
    var s' := LoopStep(s, t, ch);
    AwaitClientOk(w, s, t, ch, s');
    AwaitSlots(s, t, ch, s');
    assert ReplyOk(s, t);
    UnclaimedInv(w, s, Idle, s'.clients[t], t);
  }

  /** A result picked up is recorded with its version, before anything is done with it. */
  lemma AwaitClientOk(w: World, s: State, t: Tid, ch: Choice, s': State)
    requires Inv(w, s) && LoopEnabled(s, t, ch) && s.clients[t].lpc.Await? && s' == LoopStep(s, t, ch)
    ensures |s'.clients| == |s'.calls| == |s.calls| && ClientOk(w, s', t)
  {
    assert ClientOk(w, s, t) && ReplyOk(s, t);
    AwaitSnapshot(w, s, s', t);
  }

  lemma AwaitSlots(s: State, t: Tid, ch: Choice, s': State)
    requires LoopEnabled(s, t, ch) && s.clients[t].lpc.Await? && s' == LoopStep(s, t, ch)
    requires |s'.clients| == |s'.calls| == |s.calls|
    ensures s' == Become(Goto(s, t, Idle), t, s'.clients[t])
    ensures forall i: nat, o: Obj :: SlotOf(s'.clients[t], i, o) == SlotOf(s.clients[t], i, o)
  {}

  lemma AwaitSnapshot(w: World, s: State, s': State, t: Tid)
    requires BrokerInv(w, s) && t < |s.calls| && s.calls[t].Returned? && s'.calls == s.calls[t := Idle]
    requires s'.items == s.items && s'.heap == s.heap && s'.nextObj == s.nextObj
    ensures forall id, v, n, d :: Snapshot(s, id, v, n, d) ==> Snapshot(s', id, v, n, d)
  {
    forall id | 0 <= id < |s.items| ensures Current(s', id) == Current(s, id) {
      assert LockOk(s, id);
    }
  }

  /** An ephemeral claim is refused only when the object has been superseded. */
  lemma EphemeralInv(w: World, s: State, t: Tid, ch: Choice)
    requires Inv(w, s) && LoopEnabled(s, t, ch) && s.clients[t].lpc.Ephemeral?
    ensures Inv(w, LoopStep(s, t, ch))
  {
    var s', watch, pc := LoopStep(s, t, ch), s.clients[t].watch, s.clients[t].lpc;
    assert ClientOk(w, s, t) && ReplyOk(s, t);
    if ch.Fail? { Unowned(w, s, watch[pc.i], pc.obj); }
    StayInv(w, s, t, s'.clients[t]);
  }

  lemma Unowned(w: World, s: State, wt: Watch, o: Obj)
    requires BrokerInv(w, s) && Offered(s, wt, o) && !Claimed(s, o)
    ensures wt.seen < |s.items[wt.futex.value].values|
  {
    var id := wt.futex.value;
    if wt.seen == |s.items[id].values| { CurrentClaimed(w, s, id); }
  }

  lemma HandlingInv(w: World, s: State, t: Tid, ch: Choice)
    requires Inv(w, s) && LoopEnabled(s, t, ch) && s.clients[t].lpc.Handling?
    ensures Inv(w, LoopStep(s, t, ch))
  {
    assert ClientOk(w, s, t) && ReplyOk(s, t);
    StayInv(w, s, t, LoopStep(s, t, ch).clients[t]);
  }

  lemma BlockedInv(w: World, s: State, t: Tid, ch: Choice)
    requires Inv(w, s) && LoopEnabled(s, t, ch) && s.clients[t].lpc.Blocked?
    ensures Inv(w, LoopStep(s, t, ch))
  {
    assert ClientOk(w, s, t) && ReplyOk(s, t);
    StayInv(w, s, t, LoopStep(s, t, ch).clients[t]);
  }

  /** What is offered came out of the parser for that name. */
  lemma OfferedGenuine(w: World, s: State, wt: Watch, o: Obj)
    requires BrokerInv(w, s) && Offered(s, wt, o) && WatchOk(w, s, wt)
    ensures Genuine(w, s, wt.cap.name, o)
  {
    assert ItemOk(w, s, wt.futex.value);
  }

  lemma SwapInv(w: World, s: State, t: Tid, ch: Choice)
    requires Inv(w, s) && LoopEnabled(s, t, ch) && s.clients[t].lpc.Swap?
    ensures Inv(w, LoopStep(s, t, ch))
  {
    var client := LoopStep(s, t, ch).clients[t];
    assert LoopStep(s, t, ch) == Become(s, t, client);
    SwapClientOk(w, s, t, ch, Become(s, t, client));
    StayInv(w, s, t, client);
  }

  lemma SwapClientOk(w: World, s: State, t: Tid, ch: Choice, s': State)
    requires Inv(w, s) && LoopEnabled(s, t, ch) && s.clients[t].lpc.Swap? && s' == LoopStep(s, t, ch)
    ensures ClientOk(w, s', t) && ReplyOk(s', t) && !HoldsItem(s.calls[t])
    ensures forall i: nat, o: Obj :: SlotOf(s'.clients[t], i, o) == SlotOf(s.clients[t], i, o)
  {
    var watch, pc := s.clients[t].watch, s.clients[t].lpc;
    assert ClientOk(w, s, t) && ReplyOk(s, t);
    assert WatchOk(w, s, watch[pc.i]);
    OfferedGenuine(w, s, watch[pc.i], pc.obj);
  }

  function Delta(it: bool, add: bool): int { if !it then 0 else if add then 1 else -1 }

  /** A step that takes (`add`) or releases one claim of handler `slot`. */
  lemma ClaimInv(w: World, s: State, t: Tid, client: Client, slot: nat, o: Obj, add: bool)
    requires Inv(w, s) && t < |s.calls| && !HoldsItem(s.calls[t])
    requires if add then o in s.heap else Claim(Handler(t, slot), o) in s.claims
    requires ClientOk(w, Become(s, t, client), t)
    requires forall i: nat, p: Obj ::
      SlotOf(client, i, p) == SlotOf(s.clients[t], i, p) + Delta(i == slot && p == o, add)
    ensures var c := multiset{Claim(Handler(t, slot), o)};
      Inv(w, Become(s, t, client).(claims := if add then s.claims + c else s.claims - c))
  {
    var c := multiset{Claim(Handler(t, slot), o)};
    var claims := if add then s.claims + c else s.claims - c;
    var s1 := Become(s, t, client);
    var s' := s1.(claims := claims);
    ClaimBroker(w, s, s1.clients, t, slot, o, add, claims);
    assert s' == s.(clients := s1.clients, now := s.now).(claims := claims);
    ClaimSlots(s, t, client, slot, o, add, claims);
    assert ReplyOk(s, t) && ReplyOk(s', t);
    ClaimedClientOk(w, s1, t, claims);
    InClientKeeps(w, s, s', t);
  }

  lemma ClaimBroker(w: World, s: State, clients: seq<Client>, t: Tid, slot: nat, o: Obj, add: bool,
                    claims: multiset<Claim>)
    requires BrokerInv(w, s) && (if add then o in s.heap else Claim(Handler(t, slot), o) in s.claims)
    requires var c := multiset{Claim(Handler(t, slot), o)};
      claims == if add then s.claims + c else s.claims - c
    ensures BrokerInv(w, s.(clients := clients, now := s.now).(claims := claims))
  {
    Unrelated(w, s, clients, s.now);
    ClaimsKeep(w, s.(clients := clients, now := s.now), claims);
  }

  lemma ClaimSlots(s: State, t: Tid, client: Client, slot: nat, o: Obj, add: bool, claims: multiset<Claim>)
    requires Balanced(s) && t < |s.clients|
    requires add || Claim(Handler(t, slot), o) in s.claims
    requires forall i: nat, p: Obj ::
      SlotOf(client, i, p) == SlotOf(s.clients[t], i, p) + Delta(i == slot && p == o, add)
    requires var c := multiset{Claim(Handler(t, slot), o)};
      claims == if add then s.claims + c else s.claims - c
    ensures forall i: nat, p: Obj :: claims[Claim(Handler(t, i), p)] == SlotOf(client, i, p)
  {
    forall i: nat, p: Obj ensures claims[Claim(Handler(t, i), p)] == SlotOf(client, i, p) {
      assert s.claims[Claim(Handler(t, i), p)] == Slot(s, t, i, p);
    }
  }

  lemma ClaimedClientOk(w: World, s: State, t: Tid, claims: multiset<Claim>)
    requires t < |s.calls| == |s.clients| && ClientOk(w, s, t)
    ensures ClientOk(w, s.(claims := claims), t)
  {
    var s' := s.(claims := claims);
    assert forall id :: HolderCall(s', id) == HolderCall(s, id);
    if s.clients[t].Loop? {
      var watch := s.clients[t].watch;
      forall i | 0 <= i < |watch| ensures WatchOk(w, s', watch[i]) { assert WatchOk(w, s, watch[i]); }
    }
  }

  lemma KeepingInv(w: World, s: State, t: Tid, ch: Choice)
    requires Inv(w, s) && LoopEnabled(s, t, ch) && s.clients[t].lpc.Keeping?
    ensures Inv(w, LoopStep(s, t, ch))
  {
    var watch, pc := s.clients[t].watch, s.clients[t].lpc;
    assert ClientOk(w, s, t) && ReplyOk(s, t);
    var client := LoopStep(s, t, ch).clients[t];
    KeptClientOk(w, s, t, ch);
    if ch.Fail? || ch.Error? {
      StayInv(w, s, t, client);
    } else {
      ClaimInv(w, s, t, client, pc.i, pc.obj, true);
    }
  }

  lemma KeptClientOk(w: World, s: State, t: Tid, ch: Choice)
    requires Inv(w, s) && LoopEnabled(s, t, ch) && s.clients[t].lpc.Keeping?
    ensures ClientOk(w, Become(s, t, LoopStep(s, t, ch).clients[t]), t) && !HoldsItem(s.calls[t])
  {
    assert ClientOk(w, s, t);
  }

  function Released(c: Client): Client
    requires c.Loop? && c.lpc.Release? && c.lpc.i < |c.watch|
  {
    var wt, pc := c.watch[c.lpc.i], c.lpc;
    Loop(c.watch[pc.i := wt.(sound := StillSound(wt, pc.prev, pc.had))], Scan(pc.i + 1, pc.fired))
  }

  /** Freeing the previous pointer gives up a claim if there is one to give up. */
  lemma ReleaseInv(w: World, s: State, t: Tid, ch: Choice)
    requires Inv(w, s) && LoopEnabled(s, t, ch) && s.clients[t].lpc.Release?
    ensures Inv(w, LoopStep(s, t, ch))
  {
    var pc, client := s.clients[t].lpc, Released(s.clients[t]);
    assert LoopStep(s, t, ch) == Become(s, t, client).(
      claims := if pc.prev.Some? then s.claims - multiset{Claim(Handler(t, pc.i), pc.prev.value)} else s.claims);
    ReleasedClientOk(w, s, t);
    ReleasedSlots(s.clients[t]);
    if pc.prev.None? {
      StayInv(w, s, t, client);
    } else {
      FreedInv(w, s, t, pc.prev.value);
    }
  }

  lemma FreedInv(w: World, s: State, t: Tid, o: Obj)
    requires Inv(w, s) && t < |s.clients| && s.clients[t].Loop? && s.clients[t].lpc.Release?
    requires s.clients[t].lpc.prev == Some(o) && s.clients[t].lpc.i < |s.clients[t].watch|
    requires var s' := Become(s, t, Released(s.clients[t]));
      ClientOk(w, s', t) && ReplyOk(s', t) && !HoldsItem(s.calls[t])
    ensures var c := multiset{Claim(Handler(t, s.clients[t].lpc.i), o)};
      Inv(w, Become(s, t, Released(s.clients[t])).(claims := s.claims - c))
  {
    var i, client := s.clients[t].lpc.i, Released(s.clients[t]);
    ReleasedSlots(s.clients[t]);
    assert s.claims[Claim(Handler(t, i), o)] == Slot(s, t, i, o);
    if Claim(Handler(t, i), o) in s.claims {
      ClaimInv(w, s, t, client, i, o, false);
    } else {
      assert s.claims - multiset{Claim(Handler(t, i), o)} == s.claims;
      StayInv(w, s, t, client);
    }
  }

  lemma ReleasedSlots(c: Client)
    requires c.Loop? && c.lpc.Release? && c.lpc.i < |c.watch|
    ensures forall i: nat, o: Obj ::
      SlotOf(Released(c), i, o) ==
      SlotOf(c, i, o) + Delta(i == c.lpc.i && c.lpc.prev == Some(o) && SlotOf(c, i, o) > 0, false)
  {}

  lemma ReleasedClientOk(w: World, s: State, t: Tid)
    requires Inv(w, s) && t < |s.clients| && s.clients[t].Loop? && s.clients[t].lpc.Release?
    requires s.clients[t].lpc.i < |s.clients[t].watch|
    ensures var s' := Become(s, t, Released(s.clients[t]));
      ClientOk(w, s', t) && ReplyOk(s', t) && !HoldsItem(s.calls[t])
  {
    assert ClientOk(w, s, t) && ReplyOk(s, t);
  }

  lemma LoopInv(w: World, s: State, t: Tid, ch: Choice)
    requires Inv(w, s) && LoopEnabled(s, t, ch)
    ensures Inv(w, LoopStep(s, t, ch))
  {
    match s.clients[t].lpc
    case Scan(i, _) => if i < |s.clients[t].watch| { ScanInv(w, s, t, ch); } else { WaitInv(w, s, t, ch); }
    case Await(_, _) => AwaitInv(w, s, t, ch);
    case Ephemeral(_, _, _) => EphemeralInv(w, s, t, ch);
    case Handling(_, _, _) => HandlingInv(w, s, t, ch);
    case Keeping(_, _, _) => KeepingInv(w, s, t, ch);
    case Swap(_, _, _, _) => SwapInv(w, s, t, ch);
    case Release(_, _, _, _) => ReleaseInv(w, s, t, ch);
    case Blocked(_) => BlockedInv(w, s, t, ch);
    case Exited =>
  }

  // ----- update_status -----------------------------------------------------------------

  lemma FetchInv(w: World, s: State, t: Tid, ch: Choice)
    requires Inv(w, s) && StatusEnabled(s, t, ch) && (s.clients[t].spc.Rest? || s.clients[t].spc.Fetch?)
    ensures Inv(w, StatusStep(s, t, ch))
  {
    var s' := StatusStep(s, t, ch);
    assert ClientOk(w, s, t) && ReplyOk(s, t);
    if s.clients[t].spc.Fetch? && s.calls[t].reply.Found? { assert ItemOk(w, s, s.calls[t].reply.id); }
    UnclaimedInv(w, s, s'.calls[t], s'.clients[t], t);
  }

  lemma SecureInv(w: World, s: State, t: Tid, ch: Choice)
    requires Inv(w, s) && StatusEnabled(s, t, ch) && s.clients[t].spc.Secure?
    ensures Inv(w, StatusStep(s, t, ch))
  {
    var c := s.clients[t];
    assert ClientOk(w, s, t) && ReplyOk(s, t);
    if ch.Fail? || ch.Error? {
      StayInv(w, s, t, c.(refused := true, spc := Rest));
    } else {
      ClaimInv(w, s, t, c.(refused := false, spc := Compare(c.spc.obj)), 0, c.spc.obj, true);
    }
  }

  lemma CompareInv(w: World, s: State, t: Tid, ch: Choice)
    requires Inv(w, s) && StatusEnabled(s, t, ch) && s.clients[t].spc.Compare?
    ensures Inv(w, StatusStep(s, t, ch))
  {
    var c := s.clients[t];
    assert ClientOk(w, s, t) && ReplyOk(s, t);
    if c.config.Some? {
      ClaimInv(w, s, t, c.(spc := Adopt(c.spc.obj)), 0, c.config.value, false);
    } else {
      StayInv(w, s, t, c.(spc := Adopt(c.spc.obj)));
    }
  }

  lemma AdoptInv(w: World, s: State, t: Tid, ch: Choice)
    requires Inv(w, s) && StatusEnabled(s, t, ch) && s.clients[t].spc.Adopt?
    ensures Inv(w, StatusStep(s, t, ch))
  {
    assert ClientOk(w, s, t) && ReplyOk(s, t);
    StayInv(w, s, t, StatusStep(s, t, ch).clients[t]);
  }

  lemma StatusInv(w: World, s: State, t: Tid, ch: Choice)
    requires Inv(w, s) && StatusEnabled(s, t, ch)
    ensures Inv(w, StatusStep(s, t, ch))
  {
    match s.clients[t].spc
    case Rest => FetchInv(w, s, t, ch);
    case Fetch => FetchInv(w, s, t, ch);
    case Secure(_) => SecureInv(w, s, t, ch);
    case Compare(_) => CompareInv(w, s, t, ch);
    case Adopt(_) => AdoptInv(w, s, t, ch);
  }
}
