/**
 The MQTT side of the provider: building the topics from the system id, and finding the
 configuration name in the topic of an incoming message.
 */
module Topics {
  import opened Base
  import Parsers

  const PREFIX := "sonata-config/"

  // ----- topic matching (section 4.7 of MQTT 3.1.1) ----------------------------------

  function Levels(s: string): (l: seq<string>)
    ensures |l| > 0
  {
    if s == "" then [""]
    else if s[0] == '/' then [""] + Levels(s[1..])
    else var r := Levels(s[1..]); [[s[0]] + r[0]] + r[1..]
  }

  function Join(l: seq<string>): string
    requires |l| > 0
  {
    if |l| == 1 then l[0] else l[0] + "/" + Join(l[1..])
  }

  /** `#` as the last level stands for the parent and any number of child levels, `+` for
      one level. */
  predicate LevelsMatch(filter: seq<string>, topic: seq<string>) {
    if filter == ["#"] then true
    else if filter == [] || topic == [] then filter == topic
    else (filter[0] == "+" || filter[0] == topic[0]) && LevelsMatch(filter[1..], topic[1..])
  }

  predicate Matches(filter: string, topic: string) { LevelsMatch(Levels(filter), Levels(topic)) }

  lemma {:induction false} LevelsOf(a: string, b: string)
    ensures Levels(a + "/" + b) == Levels(a) + Levels(b)
  {
    var s := a + "/" + b;
    if a == "" {
      assert s[1..] == b;
    } else {
      assert s[1..] == a[1..] + "/" + b;
      LevelsOf(a[1..], b);
    }
  }

  lemma {:induction false} JoinLevels(s: string)
    ensures Join(Levels(s)) == s
  {
    if s != "" {
      JoinLevels(s[1..]);
      var r := Levels(s[1..]);
      if s[0] == '/' {
        assert ([""] + r)[1..] == r;
      } else {
        assert ([[s[0]] + r[0]] + r[1..])[1..] == r[1..];
      }
    }
  }

  lemma {:induction false} JoinConcat(x: seq<string>, y: seq<string>)
    requires |x| > 0 && |y| > 0
    ensures Join(x + y) == Join(x) + "/" + Join(y)
  {
    if |x| == 1 {
      assert (x + y)[1..] == y;
    } else {
      assert (x + y)[1..] == x[1..] + y;
      JoinConcat(x[1..], y);
    }
  }

  predicate SlashFree(l: seq<string>) { forall i :: 0 <= i < |l| ==> '/' !in l[i] }

  lemma {:induction false} LevelsSlashFree(s: string)
    ensures SlashFree(Levels(s))
  {
    if s != "" { LevelsSlashFree(s[1..]); }
  }

  lemma {:induction false} OneLevel(s: string)
    requires '/' !in s
    ensures Levels(s) == [s]
  {
    if s != "" {
      OneLevel(s[1..]);
      assert [s[0]] + s[1..] == s;
    }
  }

  lemma {:induction false} LevelsJoin(l: seq<string>)
    requires |l| > 0 && SlashFree(l)
    ensures Levels(Join(l)) == l
  {
    OneLevel(l[0]);
    if |l| > 1 {
      LevelsJoin(l[1..]);
      LevelsOf(l[0], Join(l[1..]));
      assert [l[0]] + l[1..] == l;
    }
  }

  lemma {:induction false} MatchesBelow(p: seq<string>, t: seq<string>)
    ensures LevelsMatch(p + ["#"], t) <==>
      |p| <= |t| && forall i :: 0 <= i < |p| ==> p[i] == "+" || p[i] == t[i]
  {
    var f := p + ["#"];
    if p == [] {
      assert f == ["#"];
    } else {
      assert f[1..] == p[1..] + ["#"] && f[0] == p[0] && |f| > 1;
      if t != [] {
        MatchesBelow(p[1..], t[1..]);
        assert forall i :: 0 < i < |p| && i < |t| ==> p[1..][i - 1] == p[i] && t[1..][i - 1] == t[i];
      }
    }
  }

  lemma HashLevel()
    ensures Levels("#") == ["#"]
  {
    var s := "#";
    assert s[1..] == "";
    assert [s[0]] + "" == s;
    assert Levels(s) == [[s[0]] + Levels(s[1..])[0]] + Levels(s[1..])[1..];
  }

  /** What a subscription to everything under `base` is for: the part of a topic that stands
      for `base`, and what follows it. */
  function Own(base: string, topic: string): string
    requires |Levels(base)| <= |Levels(topic)|
  {
    Join(Levels(topic)[..|Levels(base)|])
  }

  function Rest(base: string, topic: string): Option<string>
    requires |Levels(base)| <= |Levels(topic)|
  {
    var n := |Levels(base)|;
    if |Levels(topic)| == n then None else Some(Join(Levels(topic)[n..]))
  }

  predicate NoPlus(base: string) { "+" !in Levels(base) }

  lemma MatchesLevels(base: string, topic: string)
    ensures Matches(base + "/#", topic) <==>
      |Levels(base)| <= |Levels(topic)| &&
      forall i :: 0 <= i < |Levels(base)| ==> Levels(base)[i] == "+" || Levels(base)[i] == Levels(topic)[i]
  {
    assert base + "/#" == base + "/" + "#";
    LevelsOf(base, "#");
    HashLevel();
    MatchesBelow(Levels(base), Levels(topic));
  }

  lemma TopicSplits(base: string, topic: string)
    requires |Levels(base)| <= |Levels(topic)|
    ensures topic == match Rest(base, topic)
                     case None => Own(base, topic)
                     case Some(r) => Own(base, topic) + "/" + r
  {
    var l, n := Levels(topic), |Levels(base)|;
    JoinLevels(topic);
    assert l == l[..n] + l[n..];
    if |l| == n { assert l[..n] == l; } else { JoinConcat(l[..n], l[n..]); }
  }

  lemma OwnIsBase(base: string, topic: string)
    requires Matches(base + "/#", topic) && NoPlus(base)
    ensures |Levels(base)| <= |Levels(topic)| && Own(base, topic) == base
  {
    MatchesLevels(base, topic);
    var n := |Levels(base)|;
    assert forall i :: 0 <= i < n ==> Levels(base)[i] != "+";
    assert Levels(topic)[..n] == Levels(base);
    JoinLevels(base);
  }

  /** Without wildcard levels, the topics under `base` are itself and everything that
      continues it with a slash. */
  lemma SubtopicsExactly(base: string, topic: string)
    requires NoPlus(base)
    ensures Matches(base + "/#", topic) <==> topic == base || base + "/" <= topic
  {
    MatchesLevels(base, topic);
    if topic == base || base + "/" <= topic {
      if topic != base {
        var x := topic[|base| + 1..];
        assert topic == base + "/" + x;
        LevelsOf(base, x);
      }
    } else if Matches(base + "/#", topic) {
      OwnIsBase(base, topic);
      TopicSplits(base, topic);
    }
  }

  // ----- the provider's topics ----------------------------------------------------------

  function Branch(id: string): string { PREFIX + "Config/" + id }

  function AsText(b: Bytes): string { seq(|b|, i requires 0 <= i < |b| => b[i] as char) }

  /** What strlen takes for the id: everything before the first NUL of the structure. */
  function IdRead(config: Bytes): string { AsText(Parsers.Text(config)) }

  /** strlen, on a pointer that cannot be read past the structure; none is a fault. */
  method StrLen(config: Bytes) returns (n: Option<nat>)
    ensures n == if 0 in config then Some(|Parsers.Text(config)|) else None
  {
    var i := 0;
    while i < |config| && config[i] != 0
      invariant 0 <= i <= |config| && 0 !in config[..i]
    {
      i := i + 1;
    }
    if i == |config| {
      assert config[..i] == config;
      return None;
    }
    assert forall j :: 0 <= j < i ==> config[j] == config[..i][j];
    Parsers.TextIs(config, i);
    return Some(i);
  }

  /** The globals config_topic and status_topic. */
  class Subscription {
    var configTopic: string
    var statusTopic: string

    constructor ()
      ensures configTopic == "" && statusTopic == ""
    {
      configTopic, statusTopic := "", "";
    }

    /** generate_topics, on the structure whose first field is the id.  It faults, half way,
        exactly when there is no NUL anywhere in the structure. */
    method GenerateTopics(config: Bytes) returns (ok: bool)
      modifies this
      ensures ok <==> 0 in config
      ensures ok ==>
        configTopic == Branch(IdRead(config)) + "/#" && statusTopic == PREFIX + "Status/" + IdRead(config)
      ensures !ok ==> configTopic == Branch("") && statusTopic == old(statusTopic)
    {
      configTopic := "";
      configTopic := configTopic + PREFIX;
      configTopic := configTopic + "Config/";
      var n := StrLen(config);
      if n == None { return false; }
      configTopic := configTopic + AsText(config[..n.value]);
      configTopic := configTopic + "/#";
      statusTopic := "";
      statusTopic := statusTopic + PREFIX;
      statusTopic := statusTopic + "Status/";
      n := StrLen(config);
      statusTopic := statusTopic + AsText(config[..n.value]);
      return true;
    }

    /** The name that publishCallback hands to updateConfig, or none on the reject branch.
        size() - 1 is 32-bit unsigned. */
    method ConfigName(topic: string) returns (name: Option<string>)
      // before any topic was generated every message is rejected
      ensures configTopic == "" && |topic| < U32 ==> name == None
      // for a subscribed topic, the name is what follows the part that stands for the base,
      // exactly when that part is as long as the base itself
      ensures forall base | configTopic == base + "/#" && |configTopic| < U32 && Matches(configTopic, topic) ::
        |Levels(base)| <= |Levels(topic)| && (name == Named(base, topic) <==> RightlyCut(base, topic))
      ensures forall base, x | configTopic == base + "/#" && |configTopic| < U32 && NoPlus(base) &&
        Matches(configTopic, topic) :: name == Some(x) <==> x != "" && topic == base + "/" + x
    {
      var idOffset := (|configTopic| + U32 - 1) % U32;
      name := if idOffset < |topic| then Some(topic[idOffset..]) else None;
      forall base | configTopic == base + "/#" && |configTopic| < U32 && Matches(configTopic, topic)
        ensures |Levels(base)| <= |Levels(topic)| && (name == Named(base, topic) <==> RightlyCut(base, topic))
      {
        ExtractsExactly(base, topic);
      }
      forall base, x | configTopic == base + "/#" && |configTopic| < U32 && NoPlus(base) && Matches(configTopic, topic)
        ensures name == Some(x) <==> x != "" && topic == base + "/" + x
      {
        ExtractsTheRest(base, topic);
      }
    }
  }

  function Extract(configTopic: string, topic: string): Option<string> {
    var idOffset := (|configTopic| + U32 - 1) % U32;
    if idOffset < |topic| then Some(topic[idOffset..]) else None
  }

  /** The configuration a subscribed topic names: none for the parent topic and for an empty
      last level. */
  function Named(base: string, topic: string): Option<string>
    requires |Levels(base)| <= |Levels(topic)|
  {
    if Rest(base, topic) == Some("") then None else Rest(base, topic)
  }

  predicate RightlyCut(base: string, topic: string)
    requires |Levels(base)| <= |Levels(topic)|
  {
    |Own(base, topic)| == |base| || (Named(base, topic) == None && |topic| <= |base| + 1)
  }

  /** For every base and every topic that its filter matches, the offset finds the name if
      and only if the part of the topic that stands for the base has the base's length. */
  lemma ExtractsExactly(base: string, topic: string)
    requires |base| + 2 < U32 && Matches(base + "/#", topic)
    ensures |Levels(base)| <= |Levels(topic)|
    ensures Extract(base + "/#", topic) == Named(base, topic) <==> RightlyCut(base, topic)
  {
    MatchesLevels(base, topic);
    TopicSplits(base, topic);
    var n, own := |base| + 1, Own(base, topic);
    assert (|base + "/#"| + U32 - 1) % U32 == n;
    if Named(base, topic).Some? && |own| == |base| { assert topic[n..] == Named(base, topic).value; }
  }

  /** Without wildcard levels: what is extracted is exactly what follows the filter's prefix,
      and the reject branch is taken exactly for the parent topic and for an empty name. */
  lemma ExtractsTheRest(base: string, topic: string)
    requires NoPlus(base) && |base| + 2 < U32 && Matches(base + "/#", topic)
    ensures forall x :: Extract(base + "/#", topic) == Some(x) <==> x != "" && topic == base + "/" + x
    ensures Extract(base + "/#", topic) == None <==> topic == base || topic == base + "/"
  {
    ExtractsExactly(base, topic);
    OwnIsBase(base, topic);
    TopicSplits(base, topic);
    assert Extract(base + "/#", topic) == Named(base, topic);
    forall x | topic == base + "/" + x ensures Rest(base, topic) == Some(x) {
      assert topic[|base| + 1..] == x;
    }
  }

  /** A level written "+" stands for any level: here one of two letters. */
  function Fill(l: seq<string>): (f: seq<string>)
    ensures |f| == |l|
  {
    if l == [] then [] else [if l[0] == "+" then "aa" else l[0]] + Fill(l[1..])
  }

  lemma {:induction false} FillOk(l: seq<string>)
    requires |l| > 0 && SlashFree(l)
    ensures SlashFree(Fill(l)) && forall i :: 0 <= i < |l| ==> l[i] == "+" || l[i] == Fill(l)[i]
    ensures |Join(Fill(l))| >= |Join(l)| && ("+" in l ==> |Join(Fill(l))| > |Join(l)|)
  {
    if |l| > 1 {
      FillOk(l[1..]);
      assert forall i :: 0 < i < |l| ==> l[1..][i - 1] == l[i];
      assert Fill(l)[1..] == Fill(l[1..]);
    }
  }

  /** The name is found in every topic that the subscription can deliver if and only if no
      level of the base is a wildcard. */
  lemma RightForAllExactly(base: string)
    requires |base| + 2 < U32
    ensures (forall topic | Matches(base + "/#", topic) ::
               |Levels(base)| <= |Levels(topic)| && Extract(base + "/#", topic) == Named(base, topic)) <==>
            NoPlus(base)
  {
    forall topic | Matches(base + "/#", topic)
      ensures |Levels(base)| <= |Levels(topic)|
      ensures NoPlus(base) ==> Extract(base + "/#", topic) == Named(base, topic)
    {
      ExtractsExactly(base, topic);
      if NoPlus(base) { OwnIsBase(base, topic); }
    }
    if !NoPlus(base) {
      var topic := WronglyCut(base);
      ExtractsExactly(base, topic);
    }
  }

  lemma WronglyCut(base: string) returns (topic: string)
    requires !NoPlus(base)
    ensures Matches(base + "/#", topic) && |Levels(base)| <= |Levels(topic)| && !RightlyCut(base, topic)
  {
    var l := Levels(base);
    var f := Fill(l);
    LevelsSlashFree(base);
    FillOk(l);
    topic := Join(f) + "/" + "x";
    LevelsOf(Join(f), "x");
    LevelsJoin(f);
    OneLevel("x");
    assert Levels(topic) == f + ["x"];
    MatchesLevels(base, topic);
    assert Levels(topic)[..|l|] == f && Levels(topic)[|l|..] == ["x"];
    JoinLevels(base);
  }

  // ----- where the id comes from -----------------------------------------------------------

  predicate Plain(s: string) { '+' !in s && '#' !in s && '/' !in s }

  lemma ThreeLevels(a: string, b: string, c: string)
    requires '/' !in a && '/' !in b && '/' !in c
    ensures Levels(a + "/" + b + "/" + c) == [a, b, c]
  {
    LevelsOf(a + "/" + b, c);
    LevelsOf(a, b);
    OneLevel(a);
    OneLevel(b);
    OneLevel(c);
  }

  lemma PlainBranch(id: string)
    requires Plain(id)
    ensures NoPlus(Branch(id))
  {
    assert Branch(id) == "sonata-config" + "/" + "Config" + "/" + id;
    ThreeLevels("sonata-config", "Config", id);
    assert |"+"| == 1 && |"Config"| == 6 && |"sonata-config"| == 13;
  }

  /** The id field by itself has no wildcard and no slash. */
  lemma AcceptedIdsArePlain(v: Bytes)
    requires Parsers.SystemAccepts(v)
    ensures Plain(AsText(Parsers.Text(v[..Parsers.FIELD])))
  {
    var t := Parsers.Text(v[..Parsers.FIELD]);
    forall i | 0 <= i < |t| ensures AsText(t)[i] != '+' && AsText(t)[i] != '#' && AsText(t)[i] != '/' {
      assert Parsers.IsValidChar(t[i]);
    }
  }

  /** What is read has no wildcard either, as long as the switches are booleans. */
  lemma BooleansArePlain(v: Bytes)
    requires Parsers.SystemAccepts(v) && |v| == Parsers.SIZE
    requires forall i :: Parsers.FIELD <= i < Parsers.SIZE ==> v[i] <= 1
    ensures Plain(IdRead(v))
  {
    var t, field := Parsers.Text(v), Parsers.Text(v[..Parsers.FIELD]);
    forall i | 0 <= i < |t| ensures AsText(t)[i] != '+' && AsText(t)[i] != '#' && AsText(t)[i] != '/' {
      if i < Parsers.FIELD {
        assert t[i] == v[..Parsers.FIELD][i] != 0;
        assert |field| > i;
        assert Parsers.IsValidChar(field[i]);
      }
    }
  }

  /** The id field is not full, or the first switch is off. */
  predicate Terminated(v: Bytes)
    requires |v| == Parsers.SIZE
  {
    |Parsers.Text(v[..Parsers.FIELD])| < Parsers.FIELD || v[Parsers.FIELD] == 0
  }

  /** strlen starts in the id field and may run on into the switches: it reads the id alone
      exactly when the field is not full or the first switch is off, and it stays inside the
      structure exactly when there is a NUL in it. */
  lemma IdReadExactly(v: Bytes)
    requires |v| == Parsers.SIZE
    ensures Parsers.Text(v) == Parsers.Text(v[..Parsers.FIELD]) <==> Terminated(v)
    ensures |Parsers.Text(v)| < |v| <==> 0 in v
    ensures Terminated(v) ==> 0 in v
  {
    var t := Parsers.Text(v[..Parsers.FIELD]);
    assert forall i :: 0 <= i < |t| ==> v[i] == t[i];
    if Terminated(v) {
      assert v[|t|] == 0;
      Parsers.TextIs(v, |t|);
      assert v[..|t|] == t;
    } else {
      var w := Parsers.Text(v);
      assert |w| != Parsers.FIELD;
    }
    if |Parsers.Text(v)| == |v| { assert Parsers.Text(v) == v; }
  }

  /** Accepted and published as they are: sixteen letters, followed by these switches. */
  function FullId(switches: Bytes): Bytes
    requires |switches| == 8
  {
    seq(Parsers.FIELD, _ => 97) + switches
  }

  lemma FullIdAccepted(switches: Bytes)
    requires |switches| == 8
    ensures var v := FullId(switches);
      |v| == Parsers.SIZE && Parsers.SystemAccepts(v) && Parsers.SystemValue(v) == v &&
      Parsers.Text(v[..Parsers.FIELD]) == v[..Parsers.FIELD]
  {
    var v := FullId(switches);
    assert forall i :: 0 <= i < Parsers.FIELD ==> v[i] == 97;
    Parsers.TextIs(v[..Parsers.FIELD], Parsers.FIELD);
    assert v[..Parsers.FIELD][..Parsers.FIELD] == v[..Parsers.FIELD];
    assert v[16..24] == switches;
  }

  /** With the first switch on, the topic names another system. */
  lemma FullIdOverruns()
    ensures var v := FullId([1, 0, 0, 0, 0, 0, 0, 0]);
      Parsers.SystemAccepts(v) && |IdRead(v)| == 17 && Branch(IdRead(v)) != Branch(AsText(v[..Parsers.FIELD]))
  {
    var v := FullId([1, 0, 0, 0, 0, 0, 0, 0]);
    FullIdAccepted([1, 0, 0, 0, 0, 0, 0, 0]);
    Parsers.TextIs(v, 17);
    assert |Branch(IdRead(v))| != |Branch(AsText(v[..Parsers.FIELD]))|;
  }

  /** With every switch on, there is no NUL at all and generate_topics faults. */
  lemma FullIdFaults()
    ensures var v := FullId([1, 1, 1, 1, 1, 1, 1, 1]);
      Parsers.SystemAccepts(v) && 0 !in v
  {
    FullIdAccepted([1, 1, 1, 1, 1, 1, 1, 1]);
  }

  /** With switch bytes that are no booleans, the topic has a wildcard level. */
  lemma FullIdWildcard()
    ensures var v := FullId([47, 43, 0, 0, 0, 0, 0, 0]);
      Parsers.SystemAccepts(v) && 0 in v && !NoPlus(Branch(IdRead(v)))
  {
    var v := FullId([47, 43, 0, 0, 0, 0, 0, 0]);
    FullIdAccepted([47, 43, 0, 0, 0, 0, 0, 0]);
    assert v[18] == 0;
    Parsers.TextIs(v, 18);
    assert v[..18] == v[..16] + [47, 43];
    PlusLevel(v[..16]);
  }

  lemma PlusLevel(id: Bytes)
    ensures !NoPlus(Branch(AsText(id + [47, 43])))
  {
    var a := Branch(AsText(id));
    assert AsText(id + [47, 43]) == AsText(id) + "/" + "+";
    assert Branch(AsText(id + [47, 43])) == a + "/" + "+";
    LevelsOf(a, "+");
    OneLevel("+");
    assert (Levels(a) + ["+"])[|Levels(a)|] == "+";
  }
}
