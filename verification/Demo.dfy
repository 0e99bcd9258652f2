/** The broker with the repository's own parsers: what its consumers and provider can see. */
module Demo {
  import opened Base
  import opened Machine
  import opened Theorems
  import opened Parsers
  import Topics

  /** Two parser capabilities; the intervals in ticks depend on the board. */
  ghost function Board(loggerTicks: nat, systemTicks: nat): World {
    World(map[
      "logger" := Token(SIZE, loggerTicks, (src, out) => LoggerAccepts(src) && out == LoggerValue(src)),
      "system" := Token(SIZE, systemTicks, (src, out) => SystemAccepts(src) && out == SystemValue(src))])
  }

  /** On the zero-filled buffer that the broker allocates, each parser accepts exactly the
      sources its token admits, and leaves exactly the value the token names. */
  method ParsersMeetTokens(src: Bytes, ghost a: nat, ghost b: nat)
    returns (l: Outcome, d: array<byte>, s: Outcome, e: array<byte>)
    ensures l == Accepted <==> exists out :: Board(a, b).tokens["logger"].parses(src, out)
    ensures l == Accepted ==> Board(a, b).tokens["logger"].parses(src, d[..])
    ensures s == Accepted <==> exists out :: Board(a, b).tokens["system"].parses(src, out)
    ensures s == Accepted ==> Board(a, b).tokens["system"].parses(src, e[..])
  {
    d, e := new byte[SIZE](_ => 0), new byte[SIZE](_ => 0);
    l := ParseLogger(src, d);
    s := ParseSystem(src, e);
    TokensAdmit(src, a, b);
  }

  lemma TokensAdmit(src: Bytes, a: nat, b: nat)
    ensures LoggerAccepts(src) <==> exists out :: Board(a, b).tokens["logger"].parses(src, out)
    ensures SystemAccepts(src) <==> exists out :: Board(a, b).tokens["system"].parses(src, out)
  {
    if LoggerAccepts(src) { assert Board(a, b).tokens["logger"].parses(src, LoggerValue(src)); }
    if SystemAccepts(src) { assert Board(a, b).tokens["system"].parses(src, SystemValue(src)); }
  }

  /** In every run, a logger handler is called with a well-formed, normalised value. */
  lemma LoggerHandlerSeesValid(a: nat, b: nat, tr: seq<State>, k: nat, t: Tid)
    requires Run(Board(a, b), tr) && k < |tr| && t < |tr[k].clients|
    requires tr[k].clients[t].Loop? && tr[k].clients[t].lpc.Handling?
    requires var c := tr[k].clients[t];
      c.lpc.i < |c.watch| && c.watch[c.lpc.i].cap.Sealed? && c.watch[c.lpc.i].cap.name == "logger"
    ensures tr[k].clients[t].lpc.obj in tr[k].heap
    ensures var v := tr[k].heap[tr[k].clients[t].lpc.obj].bytes;
      LoggerAccepts(v) && LoggerValue(v) == v
  {
    HandlerSafe(Board(a, b), tr, k, t);
    LoggerNormalises(tr[k].heap[tr[k].clients[t].lpc.obj].bytes);
  }

  /** In every run, what update_status builds topics from.  strlen stays inside the structure
      exactly when there is a NUL in it.  The topics name the id, and the id alone, exactly
      when the field is not full or the first switch is off.  And the names of incoming
      messages are all extracted correctly exactly when what is read makes no wildcard
      level, which both that condition and switches that are booleans ensure. */
  lemma TopicsFollowTheId(a: nat, b: nat, tr: seq<State>, k: nat, t: Tid)
    requires Run(Board(a, b), tr) && k < |tr| && t < |tr[k].clients| && tr[k].clients[t].Provider?
    requires tr[k].clients[t].spc.Compare?
    requires tr[k].clients[t].cap.Sealed? && tr[k].clients[t].cap.name == "system"
    ensures tr[k].clients[t].spc.obj in tr[k].heap
    ensures var v := tr[k].heap[tr[k].clients[t].spc.obj].bytes;
      |v| == SIZE && SystemAccepts(v) &&
      var base, id := Topics.Branch(Topics.IdRead(v)), Topics.AsText(Text(v[..FIELD]));
      (|Text(v)| < SIZE <==> 0 in v) &&
      (base == Topics.Branch(id) <==> Topics.Terminated(v)) &&
      (AllExtracted(base) <==> Topics.NoPlus(base)) &&
      (Topics.Terminated(v) ==> 0 in v && Topics.NoPlus(base)) &&
      ((forall i :: FIELD <= i < SIZE ==> v[i] <= 1) ==> Topics.NoPlus(base))
  {
    StatusBalance(Board(a, b), tr, k, t);
    var v := tr[k].heap[tr[k].clients[t].spc.obj].bytes;
    SystemNormalises(v);
    IdTopics(v);
  }

  ghost predicate AllExtracted(base: string) {
    forall topic | Topics.Matches(base + "/#", topic) ::
      |Topics.Levels(base)| <= |Topics.Levels(topic)| &&
      Topics.Extract(base + "/#", topic) == Topics.Named(base, topic)
  }

  lemma IdTopics(v: Bytes)
    requires |v| == SIZE && SystemAccepts(v)
    ensures var base, id := Topics.Branch(Topics.IdRead(v)), Topics.AsText(Text(v[..FIELD]));
      (|Text(v)| < SIZE <==> 0 in v) &&
      (base == Topics.Branch(id) <==> Topics.Terminated(v)) &&
      (AllExtracted(base) <==> Topics.NoPlus(base)) &&
      (Topics.Terminated(v) ==> 0 in v && Topics.NoPlus(base)) &&
      ((forall i :: FIELD <= i < SIZE ==> v[i] <= 1) ==> Topics.NoPlus(base))
  {
    var base := Topics.Branch(Topics.IdRead(v));
    Topics.IdReadExactly(v);
    Topics.RightForAllExactly(base);
    Topics.AcceptedIdsArePlain(v);
    SameText(v);
    if Topics.Terminated(v) { Topics.PlainBranch(Topics.IdRead(v)); }
    if forall i :: FIELD <= i < SIZE ==> v[i] <= 1 {
      Topics.BooleansArePlain(v);
      Topics.PlainBranch(Topics.IdRead(v));
    }
  }

  /** Different texts make different topics. */
  lemma SameText(v: Bytes)
    requires |v| == SIZE
    ensures Topics.Branch(Topics.IdRead(v)) == Topics.Branch(Topics.AsText(Text(v[..FIELD]))) <==>
      Text(v) == Text(v[..FIELD])
  {
    var x, y := Text(v), Text(v[..FIELD]);
    var p, q := Topics.Branch(Topics.AsText(x)), Topics.Branch(Topics.AsText(y));
    if p == q {
      var n := |Topics.Branch("")|;
      assert |p| == n + |x| && |q| == n + |y|;
      forall i | 0 <= i < |x| ensures x[i] == y[i] {
        assert p[n + i] == x[i] as char && q[n + i] == y[i] as char;
      }
    }
  }
}
