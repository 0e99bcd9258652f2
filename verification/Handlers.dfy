/**
 The two clients that keep a configuration beyond the call that delivers it, as they are
 written: a static pointer, and claims on a heap shared with everybody else.
 */
module Handlers {
  import opened Base
  import opened Machine
  import Parsers

  /** The claims of `me`: one on what the static pointer names, if that was ever granted. */
  ghost predicate Owns(claims: multiset<Claim>, me: Owner, held: Option<Obj>, sound: bool) {
    forall o :: claims[Claim(me, o)] == if sound && held == Some(o) then 1 else 0
  }

  ghost predicate OneClaim(claims: multiset<Claim>, me: Owner, held: Option<Obj>) { Owns(claims, me, held, true) }

  /** Nobody else's claims differ. */
  ghost predicate OthersKept(a: multiset<Claim>, b: multiset<Claim>, me: Owner) {
    forall c: Claim :: c.owner != me ==> b[c] == a[c]
  }

  // ----- the logger handler ----------------------------------------------------------

  /** Whether the pointer is owned afterwards: a negative result is taken for success, and a
      redelivery repairs nothing, because the claim it adds is the one that is given up. */
  predicate SoundAfter(held: Option<Obj>, sound: bool, o: Obj, result: int) {
    if result == 0 then sound else result > 0 && (sound || held != Some(o))
  }

  /** What one delivery of `o` does to the pointer and the claims, given what heap_claim
      returns.  It leaves no choice. */
  ghost predicate Handled(me: Owner, o: Obj, result: int, held: Option<Obj>, sound: bool, claims: multiset<Claim>,
                          held': Option<Obj>, sound': bool, claims': multiset<Claim>) {
    held' == (if result == 0 then held else Some(o)) && sound' == SoundAfter(held, sound, o, result) &&
    Owns(claims', me, held', sound') && OthersKept(claims, claims', me)
  }

  /** consumer1.cc: the logger configuration. */
  class Consumer {
    const me: Owner
    var logger: Option<Obj>
    var claims: multiset<Claim>
    ghost var sound: bool

    ghost predicate Valid()
      reads this
    {
      Owns(claims, me, logger, sound) && (logger.None? ==> sound)
    }

    constructor (me: Owner, claims: multiset<Claim>)
      requires OneClaim(claims, me, None)
      ensures Valid() && this.me == me && logger == None && sound && this.claims == claims
    {
      this.me, this.logger, this.claims, this.sound := me, None, claims, true;
    }

    /** logger_handler; `result` is what heap_claim returns. */
    method LoggerHandler(newConfig: Obj, result: int) returns (code: int)
      requires Valid()
      modifies this`logger, this`claims, this`sound
      ensures Valid() && code == if result == 0 then -1 else 0
      ensures Handled(me, newConfig, result, old(logger), old(sound), old(claims), logger, sound, claims)
      // exactly one claim remains, on the object named by `logger`, if and only if
      ensures old(sound) ==> (OneClaim(claims, me, logger) <==> result >= 0)
    {
      if result == 0 { return -1; }
      HandedOver(claims, me, logger, sound, newConfig, result);
      if result > 0 { claims := claims + multiset{Claim(me, newConfig)}; }
      var oldConfig := logger;
      logger := Some(newConfig);
      if oldConfig.Some? { claims := claims - multiset{Claim(me, oldConfig.value)}; }
      sound := SoundAfter(oldConfig, sound, newConfig, result);
      OneIfSound(claims, me, newConfig, sound);
      return 0;
    }
  }

  lemma HandedOver(claims: multiset<Claim>, me: Owner, held: Option<Obj>, sound: bool, o: Obj, result: int)
    requires Owns(claims, me, held, sound) && (held.None? ==> sound) && result != 0
    ensures var more := if result > 0 then claims + multiset{Claim(me, o)} else claims;
      var less := if held.Some? then more - multiset{Claim(me, held.value)} else more;
      Handled(me, o, result, held, sound, claims, Some(o), SoundAfter(held, sound, o, result), less)
  {
    var more := if result > 0 then claims + multiset{Claim(me, o)} else claims;
    forall x: Obj ensures more[Claim(me, x)] ==
      (if sound && held == Some(x) then 1 else 0) + (if result > 0 && x == o then 1 else 0) {
    }
  }

  lemma OneIfSound(claims: multiset<Claim>, me: Owner, o: Obj, sound: bool)
    requires Owns(claims, me, Some(o), sound)
    ensures OneClaim(claims, me, Some(o)) <==> sound
  {
    assert claims[Claim(me, o)] == if sound then 1 else 0;
  }

  // ----- the provider ------------------------------------------------------------------

  predicate SameId(a: Bytes, b: Bytes)
    requires |a| == |b| == Parsers.SIZE
  {
    Parsers.Text(a[..Parsers.FIELD]) == Parsers.Text(b[..Parsers.FIELD])
  }

  /** strncmp over the id field is 0. */
  method CompareIds(a: Bytes, b: Bytes) returns (same: bool)
    requires |a| == |b| == Parsers.SIZE
    ensures same <==> SameId(a, b)
  {
    var i := 0;
    while i < Parsers.FIELD && a[i] == b[i] && a[i] != 0
      invariant 0 <= i <= Parsers.FIELD
      invariant forall j :: 0 <= j < i ==> a[j] == b[j] != 0
    {
      i := i + 1;
    }
    same := i == Parsers.FIELD || a[i] == b[i];
    var x, y := a[..Parsers.FIELD], b[..Parsers.FIELD];
    assert forall j :: 0 <= j < i ==> x[j] == a[j] && y[j] == b[j];
    if same {
      Parsers.TextIs(x, i);
      Parsers.TextIs(y, i);
      assert x[..i] == y[..i];
    } else {
      Differ(x, y, i);
    }
  }

  lemma Differ(x: Bytes, y: Bytes, i: nat)
    requires i < |x| == |y| && x[i] != y[i] && forall j :: 0 <= j < i ==> x[j] == y[j] != 0
    ensures Parsers.Text(x) != Parsers.Text(y)
  {
    var s, t := Parsers.Text(x), Parsers.Text(y);
    assert x[i] != 0 ==> |s| > i && s[i] == x[i];
  }

  /** What update_status does to its statics and claims before it turns to the topics.  A
      version is recorded even when the claim for it fails. */
  ghost predicate TakenUp(me: Owner, item: Option<Obj>, itemVersion: nat, result: int,
                          version: nat, config: Option<Obj>, claims: multiset<Claim>,
                          version': nat, config': Option<Obj>, claims': multiset<Claim>) {
    version' == (if item.Some? then itemVersion else version) &&
    config' == (if item.Some? && itemVersion != version && result > 0 then item else config) &&
    OneClaim(claims', me, config') && OthersKept(claims, claims', me)
  }

  /** mqtt.cc: the version guard and the system configuration of update_status. */
  class Provider {
    const me: Owner
    var configVersion: nat
    var sysConfig: Option<Obj>
    var claims: multiset<Claim>

    constructor (me: Owner, claims: multiset<Claim>)
      requires OneClaim(claims, me, None)
      ensures this.me == me && configVersion == 0 && sysConfig == None && this.claims == claims
    {
      this.me, configVersion, sysConfig, this.claims := me, 0, None, claims;
    }

    /** The part of update_status before the topics; `live` is what the heap holds and
        `result` what heap_claim returns. */
    method TakeConfig(version: nat, data: Option<Obj>, live: map<Obj, Bytes>, result: int)
      returns (code: int, adopted: bool, idChanged: bool)
      requires OneClaim(claims, me, sysConfig)
      requires forall o :: o in live ==> |live[o]| == Parsers.SIZE
      requires (data.Some? ==> data.value in live) && (sysConfig.Some? ==> sysConfig.value in live)
      modifies this`configVersion, this`sysConfig, this`claims
      ensures TakenUp(me, data, version, result, old(configVersion), old(sysConfig), old(claims),
                      configVersion, sysConfig, claims)
      ensures adopted <==> data.Some? && version != old(configVersion) && result > 0
      ensures code == if data.Some? && version != old(configVersion) && result <= 0 then -1 else 0
      ensures adopted ==>
        (idChanged <==> (old(sysConfig).Some? ==> !SameId(live[data.value], live[old(sysConfig).value])))
    {
      code, adopted, idChanged := 0, false, false;
      if data == None || version == configVersion { return; }
      configVersion := version;
      if result <= 0 { return -1, false, false; }
      claims := claims + multiset{Claim(me, data.value)};
      idChanged := true;
      if sysConfig.Some? {
        var same := CompareIds(live[data.value], live[sysConfig.value]);
        idChanged := !same;
        claims := claims - multiset{Claim(me, sysConfig.value)};
      }
      sysConfig, adopted := data, true;
    }
  }

  // ----- the same as in the interleaved machine ------------------------------------------

  /** Two outcomes of one delivery are the same. */
  lemma Determined(me: Owner, o: Obj, result: int, held: Option<Obj>, sound: bool, claims: multiset<Claim>,
                   h: Option<Obj>, a: bool, x: multiset<Claim>, h': Option<Obj>, a': bool, y: multiset<Claim>)
    requires Handled(me, o, result, held, sound, claims, h, a, x)
    requires Handled(me, o, result, held, sound, claims, h', a', y)
    ensures h == h' && a == a' && x == y
  {
    forall c: Claim ensures x[c] == y[c] {
      if c.owner == me { assert c == Claim(me, c.obj); }
    }
  }

  function Sign(ch: Choice): int { if ch.Fail? then 0 else if ch.Error? then -1 else 1 }

  /** `n` steps of `t` alone, with `ch` for the result of heap_claim, end the handler. */
  predicate HandlerAlone(s: State, t: Tid, ch: Choice, n: nat, e: State)
    decreases n
  {
    t < |s.clients| && s.clients[t].Loop? &&
    if n == 0 then e == s && s.clients[t].lpc.Scan?
    else
      var c := if s.clients[t].lpc.Keeping? then ch else Go;
      LoopEnabled(s, t, c) && HandlerAlone(LoopStep(s, t, c), t, ch, n - 1, e)
  }

  /** The machine's handler steps, taken in a row, are one call of the method, whatever
      heap_claim returns. */
  lemma StepsAreHandler(s: State, t: Tid, ch: Choice) returns (n: nat, e: State)
    requires LoopEnabled(s, t, ch) && s.clients[t].lpc.Keeping? && (ch.Go? || ch.Fail? || ch.Error?)
    requires var i, wt := s.clients[t].lpc.i, s.clients[t].watch[s.clients[t].lpc.i];
      Owns(s.claims, Handler(t, i), wt.held, wt.sound) && (wt.held.None? ==> wt.sound)
    ensures HandlerAlone(s, t, ch, n, e)
    ensures t < |e.clients| && e.clients[t].Loop? && |e.clients[t].watch| == |s.clients[t].watch|
    ensures var i := s.clients[t].lpc.i;
      var wt, wt' := s.clients[t].watch[i], e.clients[t].watch[i];
      Handled(Handler(t, i), s.clients[t].lpc.obj, Sign(ch), wt.held, wt.sound, s.claims, wt'.held, wt'.sound, e.claims)
  {
    var a := LoopStep(s, t, ch);
    if ch.Fail? {
      n, e := 1, a;
      assert HandlerAlone(a, t, ch, 0, e);
    } else {
      var i, wt := s.clients[t].lpc.i, s.clients[t].watch[s.clients[t].lpc.i];
      HandedOver(s.claims, Handler(t, i), wt.held, wt.sound, s.clients[t].lpc.obj, Sign(ch));
      var b := LoopStep(a, t, Go);
      n, e := 3, LoopStep(b, t, Go);
      assert HandlerAlone(e, t, ch, 0, e);
      assert HandlerAlone(b, t, ch, 1, e);
      assert HandlerAlone(a, t, ch, 2, e);
    }
  }

  /** The same for update_status, from the answer of get_config on. */
  predicate StatusAlone(s: State, t: Tid, ch: Choice, n: nat, e: State)
    decreases n
  {
    t < |s.clients| && s.clients[t].Provider? &&
    if n == 0 then e == s && s.clients[t].spc.Rest?
    else
      var c := if s.clients[t].spc.Secure? then ch else Go;
      StatusEnabled(s, t, c) && StatusAlone(StatusStep(s, t, c), t, ch, n - 1, e)
  }

  lemma FromSecure(s: State, t: Tid, ch: Choice) returns (n: nat, e: State)
    requires StatusEnabled(s, t, ch) && s.clients[t].spc.Secure? && (ch.Go? || ch.Fail? || ch.Error?)
    requires OneClaim(s.claims, Handler(t, 0), s.clients[t].config)
    ensures StatusAlone(s, t, ch, n, e) && t < |e.clients| && e.clients[t].Provider?
    ensures e.clients[t].version == s.clients[t].version && OthersKept(s.claims, e.claims, Handler(t, 0))
    ensures e.clients[t].config == if ch.Go? then Some(s.clients[t].spc.obj) else s.clients[t].config
    ensures OneClaim(e.claims, Handler(t, 0), e.clients[t].config)
  {
    var a := StatusStep(s, t, ch);
    if a.clients[t].spc.Rest? {
      n, e := 1, a;
      assert StatusAlone(e, t, ch, 0, e);
    } else {
      var b := StatusStep(a, t, Go);
      n, e := 3, StatusStep(b, t, Go);
      assert StatusAlone(e, t, ch, 0, e);
      assert StatusAlone(b, t, ch, 1, e);
      assert StatusAlone(a, t, ch, 2, e);
    }
  }

  lemma StepsAreTakeConfig(s: State, t: Tid, ch: Choice) returns (n: nat, e: State)
    requires StatusEnabled(s, t, Go) && s.clients[t].spc.Fetch? && (ch.Go? || ch.Fail? || ch.Error?)
    requires OneClaim(s.claims, Handler(t, 0), s.clients[t].config)
    requires var r := s.calls[t].reply;
      ch.Go? && r.Found? && r.data.Some? ==> r.data.value in s.heap
    ensures StatusAlone(s, t, ch, n, e)
    ensures t < |e.clients| && e.clients[t].Provider?
    ensures var r, c, c' := s.calls[t].reply, s.clients[t], e.clients[t];
      TakenUp(Handler(t, 0), if r.Found? then r.data else None, if r.Found? then r.version else 0, Sign(ch),
              c.version, c.config, s.claims, c'.version, c'.config, e.claims)
  {
    var a := StatusStep(s, t, Go);
    if a.clients[t].spc.Rest? {
      n, e := 1, a;
      assert StatusAlone(e, t, ch, 0, e);
    } else {
      n, e := FromSecure(a, t, ch);
      n := n + 1;
    }
  }
}
