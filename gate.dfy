/** A logic gate: configuration checks, construction, and its transistor
    netlist fragment. */
module Gates {
  import opened Wrappers
  import opened Text
  import opened Components

  /** The configuration checks, in the order they run; None when all pass. */
  function ValidateGateConfig(config: Config): (r: Option<Error>)
    ensures r.None? ==> "type" in config && "input_components" in config && "name" in config && "k" in config
    ensures r.None? ==> config["type"].Str? && ParseGateType(config["type"].s).Some?
    ensures r.None? ==> config["input_components"].List? && config["name"].Str? && IsInt(config["k"])
  {
    if "type" !in config then Some(NotProvided("type"))
    else if "input_components" !in config then Some(NotProvided("input_components"))
    else if "name" !in config then Some(NotProvided("name"))
    else if "k" !in config then Some(NotProvided("k"))
    else if config["type"].List? then Some(Unhashable("type"))
    else if !(config["type"].Str? && ParseGateType(config["type"].s).Some?) then Some(InvalidGateType)
    else if !config["input_components"].List? then Some(WrongType("input_components"))
    else if !config["name"].Str? then Some(WrongType("name"))
    else if !IsInt(config["k"]) then Some(WrongType("k"))
    else None
  }

  predicate AllComponents(items: seq<Value>) {
    forall i :: 0 <= i < |items| ==> items[i].Comp?
  }

  function ComponentsOf(items: seq<Value>): (cs: seq<Component>)
    requires AllComponents(items)
    ensures |cs| == |items| && ComponentList(cs) == List(items)
  {
    seq(|items|, i requires 0 <= i < |items| => items[i].c)
  }

  /** A gate whose input list matches the fan-in of its type. */
  predicate WellFormed(g: Gate) {
    |g.inputs| == FanIn(g.gtype)
  }

  /** Gate.__init__: validate, check the fan-in against the leading digit of
      the type, then render (an input without an output node fails there). */
  function NewGate(config: Config): (r: Result<Gate>)
    ensures ValidateGateConfig(config).Some? ==> r == Err(ValidateGateConfig(config).value)
    ensures r.Ok? ==> WellFormed(r.value)
    ensures r.Ok? ==> config["name"] == Str(r.value.name)
    ensures r.Ok? ==> config["type"] == Str(TypeName(r.value.gtype))
    ensures r.Ok? ==> IsInt(config["k"]) && r.value.k == AsInt(config["k"])
    ensures r.Ok? ==> config["input_components"] == ComponentList(r.value.inputs)
  {
    match ValidateGateConfig(config)
    case Some(e) => Err(e)
    case None =>
      var t := ParseGateType(config["type"].s).value;
      var items := config["input_components"].items;
      if FanIn(t) != |items| then Err(FanInMismatch(FanIn(t), |items|))
      else if !AllComponents(items) then Err(NotAComponent)
      else Ok(Gate(t, config["name"].s, AsInt(config["k"]), ComponentsOf(items)))
  }

  /** The configuration keys, in the order their presence is checked. */
  const RequiredKeys: seq<string> := ["type", "input_components", "name", "k"]

  /** The first key of `keys` that the configuration lacks. */
  function FirstMissing(keys: seq<string>, config: Config): (r: Option<string>)
    ensures r.Some? ==> r.value in keys && r.value !in config
    ensures r.None? ==> forall i :: 0 <= i < |keys| ==> keys[i] in config
  {
    if keys == [] then None
    else if keys[0] !in config then Some(keys[0])
    else FirstMissing(keys[1..], config)
  }

  /** An independent statement of what construction accepts. */
  predicate GoodGateConfig(config: Config) {
    && "type" in config && "input_components" in config && "name" in config && "k" in config
    && config["type"].Str? && ParseGateType(config["type"].s).Some?
    && config["input_components"].List?
    && |config["input_components"].items| == FanIn(ParseGateType(config["type"].s).value)
    && AllComponents(config["input_components"].items)
    && config["name"].Str?
    && IsInt(config["k"])
  }

  /** A missing key is reported before anything else, and it is the first
      missing one in the order type, input_components, name, k. */
  lemma MissingKeyFirst(config: Config)
    requires FirstMissing(RequiredKeys, config).Some?
    ensures NewGate(config) == Err(NotProvided(FirstMissing(RequiredKeys, config).value))
  {
    var ks := RequiredKeys;
    assert ks[1..] == ["input_components", "name", "k"];
    assert ks[1..][1..] == ["name", "k"];
    assert ks[1..][1..][1..] == ["k"];
    assert ks[1..][1..][1..][1..] == [];
    if "type" !in config {
    } else if "input_components" !in config {
      assert FirstMissing(ks, config) == FirstMissing(ks[1..], config);
    } else if "name" !in config {
      assert FirstMissing(ks, config) == FirstMissing(ks[1..][1..], config);
    } else {
      assert FirstMissing(ks, config) == FirstMissing(ks[1..][1..][1..], config);
    }
  }

  /** Construction succeeds exactly on the configurations GoodGateConfig describes. */
  lemma NewGateAccepts(config: Config)
    ensures NewGate(config).Ok? <==> GoodGateConfig(config)
  {
  }

  /** A type outside the five, with all keys present, fails with
      InvalidGateType (or, for an unhashable list, a TypeError) before the
      other fields' types are looked at. */
  lemma InvalidTypeRejected(config: Config)
    requires FirstMissing(RequiredKeys, config).None?
    requires !(config["type"].Str? && ParseGateType(config["type"].s).Some?)
    ensures NewGate(config) == Err(if config["type"].List? then Unhashable("type") else InvalidGateType)
  {
    assert RequiredKeys[0] in config && RequiredKeys[1] in config;
    assert RequiredKeys[2] in config && RequiredKeys[3] in config;
  }

  /** A valid configuration whose input count differs from the type's
      leading digit fails with a fan-in mismatch. */
  lemma FanInEnforced(config: Config)
    requires ValidateGateConfig(config).None?
    requires |config["input_components"].items| != FanIn(ParseGateType(config["type"].s).value)
    ensures NewGate(config).Err? && NewGate(config).error.FanInMismatch?
    ensures NewGate(config).error.actual == |config["input_components"].items|
  {
  }

  datatype Channel = Pmos | Nmos

  function ChannelModel(c: Channel): string {
    match c
    case Pmos => "pmos_lvt"
    case Nmos => "nmos_lvt"
  }

  /** One transistor: drain, gate, source and bulk nodes, device model and width. */
  datatype Transistor = Transistor(drain: string, gate: string, source: string, bulk: string,
                                   channel: Channel, nfin: int)

  function IntermediateNode(g: Gate): string {
    GateOutput(g) + "intermediate"
  }

  function MidNode(g: Gate): string {
    g.name + "mid"
  }

  /** The fixed transistor template of each gate type. */
  function Transistors(g: Gate): seq<Transistor>
    requires WellFormed(g)
  {
    var out := GateOutput(g);
    var a := OutputNode(g.inputs[0]);
    var mid := MidNode(g);
    var inter := IntermediateNode(g);
    match g.gtype
    case Nand2 =>
      var b := OutputNode(g.inputs[1]);
      [ Transistor(out, a, "vdd", "vdd", Pmos, g.k * 3),
        Transistor(out, b, "vdd", "vdd", Pmos, g.k * 3),
        Transistor(out, a, mid, "0", Nmos, g.k * 4),
        Transistor(mid, b, "0", "0", Nmos, g.k * 4) ]
    case Not1 =>
      [ Transistor(out, a, "vdd", "vdd", Pmos, g.k * 3),
        Transistor(out, a, "0", "0", Nmos, g.k * 2) ]
    case Nor2 =>
      var b := OutputNode(g.inputs[1]);
      [ Transistor(out, a, mid, "vdd", Pmos, g.k * 6),
        Transistor(mid, b, "vdd", "vdd", Pmos, g.k * 6),
        Transistor(out, a, "0", "0", Nmos, g.k * 2),
        Transistor(out, b, "0", "0", Nmos, g.k * 2) ]
    case And2 =>
      var b := OutputNode(g.inputs[1]);
      [ Transistor(inter, a, "vdd", "vdd", Pmos, g.k * 3),
        Transistor(inter, b, "vdd", "vdd", Pmos, g.k * 3),
        Transistor(inter, a, mid, "0", Nmos, g.k * 4),
        Transistor(mid, b, "0", "0", Nmos, g.k * 4),
        Transistor(out, inter, "0", "0", Nmos, g.k * 2),
        Transistor(out, inter, "vdd", "vdd", Pmos, g.k * 3) ]
    case Or2 =>
      var b := OutputNode(g.inputs[1]);
      [ Transistor(inter, a, mid, "vdd", Pmos, g.k * 6),
        Transistor(mid, b, "vdd", "vdd", Pmos, g.k * 6),
        Transistor(inter, a, "0", "0", Nmos, g.k * 2),
        Transistor(inter, b, "0", "0", Nmos, g.k * 2),
        Transistor(out, inter, "0", "0", Nmos, g.k * 2),
        Transistor(out, inter, "vdd", "vdd", Pmos, g.k * 3) ]
  }

  /** Line i of a fragment: `M<name>m<i> D G S B model nfin = <width>`. */
  function Line(name: string, i: nat, t: Transistor): string {
    "M" + name + "m" + NatStr(i) + " " + t.drain + " " + t.gate + " " + t.source + " "
      + t.bulk + " " + ChannelModel(t.channel) + " nfin = " + IntStr(t.nfin) + "\n"
  }

  function Lines(name: string, ts: seq<Transistor>): seq<string> {
    seq(|ts|, i requires 0 <= i < |ts| => Line(name, i, ts[i]))
  }

  /** The netlist fragment of a gate: its transistor lines, then a blank line.
      __repr__ renders the same text, as it is a function of the gate alone. */
  function Render(g: Gate): string
    requires WellFormed(g)
  {
    Concat(Lines(g.name, Transistors(g))) + "\n"
  }

  /** The AND and OR gates are a NAND or NOR stage followed by an inverter. */
  predicate Staged(t: GateType) {
    t == And2 || t == Or2
  }

  /** Complementary CMOS: one pull-up and one pull-down transistor per input,
      plus an output inverter for AND and OR. */
  lemma TransistorCount(g: Gate)
    requires WellFormed(g)
    ensures |Transistors(g)| == 2 * FanIn(g.gtype) + (if Staged(g.gtype) then 2 else 0)
    ensures |set i | 0 <= i < |Transistors(g)| && Transistors(g)[i].channel == Pmos| == |Transistors(g)| / 2
  {
    var ts := Transistors(g);
    var ps := set i | 0 <= i < |ts| && ts[i].channel == Pmos;
    match g.gtype
    case Nand2 => assert ps == {0, 1};
    case Not1 => assert ps == {0};
    case Nor2 => assert ps == {0, 1};
    case And2 => assert ps == {0, 1, 5};
    case Or2 => assert ps == {0, 1, 5};
  }

  /** Every width is the gate's k times a coefficient fixed by type and
      channel: NAND pull-up 3, pull-down 4; NOT 3 and 2; NOR 6 and 2; AND and
      OR use the NAND and NOR coefficients in their first stage and an
      inverter with 3 and 2 at the output. */
  lemma Widths(g: Gate)
    requires WellFormed(g)
    ensures forall i :: 0 <= i < |Transistors(g)| ==>
      Transistors(g)[i].nfin == g.k * Coefficient(g.gtype, Transistors(g)[i].channel, i)
  {
  }

  /** The width coefficient of transistor i of a type. */
  function Coefficient(t: GateType, c: Channel, i: nat): nat {
    if Staged(t) && i >= 4 then (if c == Pmos then 3 else 2)
    else match t
      case Nand2 => if c == Pmos then 3 else 4
      case And2 => if c == Pmos then 3 else 4
      case Not1 => if c == Pmos then 3 else 2
      case Nor2 => if c == Pmos then 6 else 2
      case Or2 => if c == Pmos then 6 else 2
  }

  /** Input j drives the gate terminal of transistor j and of transistor
      j + fan-in (its pull-up and its pull-down); the remaining transistors,
      the output inverter of an AND or OR, are driven by the intermediate node. */
  lemma InputTerminals(g: Gate)
    requires WellFormed(g)
    ensures forall j :: 0 <= j < FanIn(g.gtype) ==> Transistors(g)[j].gate == OutputNode(g.inputs[j])
    ensures forall j :: 0 <= j < FanIn(g.gtype) ==>
      Transistors(g)[j + FanIn(g.gtype)].gate == OutputNode(g.inputs[j])
    ensures forall i :: 2 * FanIn(g.gtype) <= i < |Transistors(g)| ==>
      Transistors(g)[i].gate == IntermediateNode(g)
  {
    var ts := Transistors(g);
    var a := OutputNode(g.inputs[0]);
    match g.gtype
    case Not1 =>
      assert ts[0].gate == a && ts[1].gate == a && |ts| == 2;
    case Nand2 =>
      var b := OutputNode(g.inputs[1]);
      assert ts[0].gate == a && ts[1].gate == b && ts[2].gate == a && ts[3].gate == b && |ts| == 4;
    case Nor2 =>
      var b := OutputNode(g.inputs[1]);
      assert ts[0].gate == a && ts[1].gate == b && ts[2].gate == a && ts[3].gate == b && |ts| == 4;
    case And2 =>
      var b := OutputNode(g.inputs[1]);
      assert ts[0].gate == a && ts[1].gate == b && ts[2].gate == a && ts[3].gate == b;
      assert ts[4].gate == IntermediateNode(g) && ts[5].gate == IntermediateNode(g) && |ts| == 6;
    case Or2 =>
      var b := OutputNode(g.inputs[1]);
      assert ts[0].gate == a && ts[1].gate == b && ts[2].gate == a && ts[3].gate == b;
      assert ts[4].gate == IntermediateNode(g) && ts[5].gate == IntermediateNode(g) && |ts| == 6;
  }

  /** The drain of every transistor whose drain is `from` moved to `to`. */
  function Retarget(ts: seq<Transistor>, from: string, to: string): (rs: seq<Transistor>)
    ensures |rs| == |ts|
  {
    seq(|ts|, i requires 0 <= i < |ts| =>
      if ts[i].drain == from then ts[i].(drain := to) else ts[i])
  }

  function StageType(t: GateType): GateType {
    if t == And2 then Nand2 else if t == Or2 then Nor2 else t
  }

  /** AND (OR) is the NAND (NOR) template driving out_<name>intermediate,
      followed by an inverter from that node to the output (pull-down 2k,
      pull-up 3k). */
  lemma StagedTemplate(g: Gate)
    requires WellFormed(g) && Staged(g.gtype)
    ensures Transistors(g)[..4]
         == Retarget(Transistors(g.(gtype := StageType(g.gtype))), GateOutput(g), IntermediateNode(g))
    ensures Transistors(g)[4..] == [
      Transistor(GateOutput(g), IntermediateNode(g), "0", "0", Nmos, g.k * 2),
      Transistor(GateOutput(g), IntermediateNode(g), "vdd", "vdd", Pmos, g.k * 3) ]
  {
    var s := g.(gtype := StageType(g.gtype));
    assert GateOutput(s) == GateOutput(g) && MidNode(s) == MidNode(g);
    NameNodesDiffer(g);
  }

  /** `<name>mid` and `out_<name>` are different nodes. */
  lemma NameNodesDiffer(g: Gate)
    ensures MidNode(g) != GateOutput(g)
  {
    assert |MidNode(g)| != |GateOutput(g)|;
  }

  /** A string with no line break. */
  predicate SingleLine(s: string) {
    Count('\n', s) == 0
  }

  lemma DigitsSingleLine(n: nat)
    ensures SingleLine(NatStr(n))
  {
    CountAbsent('\n', NatStr(n));
  }

  lemma IntStrSingleLine(i: int)
    ensures SingleLine(IntStr(i))
  {
    if i < 0 {
      DigitsSingleLine(-i);
      CountAppend('\n', "-", NatStr(-i));
    } else {
      DigitsSingleLine(i);
    }
  }

  lemma LiteralsSingleLine()
    ensures SingleLine("M") && SingleLine("m") && SingleLine(" ") && SingleLine(" nfin = ")
    ensures SingleLine("pmos_lvt") && SingleLine("nmos_lvt") && SingleLine("vdd") && SingleLine("0")
    ensures SingleLine("out_") && SingleLine("mid") && SingleLine("intermediate")
    ensures Count('\n', "\n") == 1
  {
    CountAbsent('\n', "M");
    CountAbsent('\n', "m");
    CountAbsent('\n', " ");
    CountAbsent('\n', " nfin = ");
    CountAbsent('\n', "pmos_lvt");
    CountAbsent('\n', "nmos_lvt");
    CountAbsent('\n', "vdd");
    CountAbsent('\n', "0");
    CountAbsent('\n', "out_");
    CountAbsent('\n', "mid");
    CountAbsent('\n', "intermediate");
    assert "\n"[..0] == "";
  }

  /** Each rendered line ends with the only line break it holds. */
  lemma LineCount(name: string, i: nat, t: Transistor)
    requires SingleLine(name) && SingleLine(t.drain) && SingleLine(t.gate)
    requires SingleLine(t.source) && SingleLine(t.bulk)
    ensures Count('\n', Line(name, i, t)) == 1
  {
    IntStrSingleLine(t.nfin);
    LiteralsSingleLine();
    assert SingleLine(ChannelModel(t.channel));
    var c := '\n';
    var p7 := "M" + name + "m" + NatStr(i) + " " + t.drain + " " + t.gate;
    LineHeadCount(name, i, t);
    var p8 := p7 + " ";
    CountAppend(c, p7, " ");
    var p9 := p8 + t.source;
    CountAppend(c, p8, t.source);
    var p10 := p9 + " ";
    CountAppend(c, p9, " ");
    var p11 := p10 + t.bulk;
    CountAppend(c, p10, t.bulk);
    var p12 := p11 + " ";
    CountAppend(c, p11, " ");
    var p13 := p12 + ChannelModel(t.channel);
    CountAppend(c, p12, ChannelModel(t.channel));
    var p14 := p13 + " nfin = ";
    CountAppend(c, p13, " nfin = ");
    var p15 := p14 + IntStr(t.nfin);
    CountAppend(c, p14, IntStr(t.nfin));
    CountAppend(c, p15, "\n");
  }

  /** The instance name, drain and gate of a line hold no line break. */
  lemma LineHeadCount(name: string, i: nat, t: Transistor)
    requires SingleLine(name) && SingleLine(t.drain) && SingleLine(t.gate)
    ensures SingleLine("M" + name + "m" + NatStr(i) + " " + t.drain + " " + t.gate)
  {
    DigitsSingleLine(i);
    LiteralsSingleLine();
    var c := '\n';
    var p1 := "M" + name;
    CountAppend(c, "M", name);
    var p2 := p1 + "m";
    CountAppend(c, p1, "m");
    var p3 := p2 + NatStr(i);
    CountAppend(c, p2, NatStr(i));
    var p4 := p3 + " ";
    CountAppend(c, p3, " ");
    var p5 := p4 + t.drain;
    CountAppend(c, p4, t.drain);
    var p6 := p5 + " ";
    CountAppend(c, p5, " ");
    CountAppend(c, p6, t.gate);
  }

  lemma {:induction false} LinesCount(name: string, ts: seq<Transistor>)
    requires SingleLine(name)
    requires forall i :: 0 <= i < |ts| ==>
      SingleLine(ts[i].drain) && SingleLine(ts[i].gate) && SingleLine(ts[i].source) && SingleLine(ts[i].bulk)
    ensures Count('\n', Concat(Lines(name, ts))) == |ts|
  {
    if ts != [] {
      var n := |ts| - 1;
      assert Lines(name, ts)[..n] == Lines(name, ts[..n]);
      LinesCount(name, ts[..n]);
      CountAppend('\n', Concat(Lines(name, ts[..n])), Line(name, n, ts[n]));
      LineCount(name, n, ts[n]);
    }
  }

  /** The input nodes and the name hold no line break. */
  predicate SingleLineNames(g: Gate) {
    SingleLine(g.name) && forall j :: 0 <= j < |g.inputs| ==> SingleLine(OutputNode(g.inputs[j]))
  }

  lemma TemplateSingleLine(g: Gate)
    requires WellFormed(g) && SingleLineNames(g)
    ensures forall i :: 0 <= i < |Transistors(g)| ==>
      SingleLine(Transistors(g)[i].drain) && SingleLine(Transistors(g)[i].gate)
      && SingleLine(Transistors(g)[i].source) && SingleLine(Transistors(g)[i].bulk)
  {
    TemplateUsesNodes(g);
    NodesSingleLine(g);
  }

  /** Every node a gate's template can name. */
  function TemplateNodes(g: Gate): set<string> {
    {GateOutput(g), MidNode(g), IntermediateNode(g), "vdd", "0"}
      + set j | 0 <= j < |g.inputs| :: OutputNode(g.inputs[j])
  }

  lemma TemplateUsesNodes(g: Gate)
    requires WellFormed(g)
    ensures forall i :: 0 <= i < |Transistors(g)| ==>
      var t := Transistors(g)[i];
      t.drain in TemplateNodes(g) && t.gate in TemplateNodes(g)
      && t.source in TemplateNodes(g) && t.bulk in TemplateNodes(g)
  {
    assert OutputNode(g.inputs[0]) in TemplateNodes(g);
    assert |g.inputs| == 2 ==> OutputNode(g.inputs[1]) in TemplateNodes(g);
  }

  lemma NodesSingleLine(g: Gate)
    requires SingleLineNames(g)
    ensures forall n :: n in TemplateNodes(g) ==> SingleLine(n)
  {
    LiteralsSingleLine();
    CountAppend('\n', "out_", g.name);
    CountAppend('\n', g.name, "mid");
    CountAppend('\n', GateOutput(g), "intermediate");
  }

  /** A fragment holds one line per transistor and a closing blank line. */
  lemma RenderLineCount(g: Gate)
    requires WellFormed(g) && SingleLineNames(g)
    ensures Count('\n', Render(g)) == |Transistors(g)| + 1
  {
    var ts := Transistors(g);
    TemplateSingleLine(g);
    LinesCount(g.name, ts);
    CountAppend('\n', Concat(Lines(g.name, ts)), "\n");
    LiteralsSingleLine();
  }

  /** The first line of a fragment is transistor m0 of the gate, and the
      fragment ends with an empty line. */
  lemma RenderEnds(g: Gate)
    requires WellFormed(g)
    ensures StartsWith(Render(g), "M" + g.name + "m0 ")
    ensures EndsWith(Render(g), "\n\n")
  {
    var ts := Transistors(g);
    assert |ts| >= 2;
    LinesStart(g.name, ts);
    LinesEnd(g.name, ts);
    PrefixAppend(Concat(Lines(g.name, ts)), "\n", "M" + g.name + "m0 ");
  }

  lemma LinesStart(name: string, ts: seq<Transistor>)
    requires |ts| >= 1
    ensures StartsWith(Concat(Lines(name, ts)), "M" + name + "m0 ")
  {
    var ls := Lines(name, ts);
    LineStart(name, 0, ts[0]);
    assert NatStr(0) == "0";
    assert "M" + name + "m" + NatStr(0) + " " == "M" + name + "m0 ";
    ConcatStart(ls, "M" + name + "m0 ");
  }

  /** A concatenation starts as its first piece does. */
  lemma ConcatStart(ls: seq<string>, p: string)
    requires |ls| >= 1 && StartsWith(ls[0], p)
    ensures StartsWith(Concat(ls), p)
  {
    assert ls == [ls[0]] + ls[1..];
    ConcatAppend([ls[0]], ls[1..]);
    assert Concat([ls[0]]) == ls[0] by {
      assert [ls[0]][..0] == [];
    }
    PrefixAppend(ls[0], Concat(ls[1..]), p);
  }

  /** Line i opens with the instance name M<name>m<i>. */
  lemma LineStart(name: string, i: nat, t: Transistor)
    ensures StartsWith(Line(name, i, t), "M" + name + "m" + NatStr(i) + " ")
  {
    var q := "M" + name + "m" + NatStr(i) + " ";
    assert q[..|q|] == q;
    var p1 := q + t.drain;
    PrefixAppend(q, t.drain, q);
    var p2 := p1 + " ";
    PrefixAppend(p1, " ", q);
    var p3 := p2 + t.gate;
    PrefixAppend(p2, t.gate, q);
    var p4 := p3 + " ";
    PrefixAppend(p3, " ", q);
    var p5 := p4 + t.source;
    PrefixAppend(p4, t.source, q);
    var p6 := p5 + " ";
    PrefixAppend(p5, " ", q);
    var p7 := p6 + t.bulk;
    PrefixAppend(p6, t.bulk, q);
    var p8 := p7 + " ";
    PrefixAppend(p7, " ", q);
    var p9 := p8 + ChannelModel(t.channel);
    PrefixAppend(p8, ChannelModel(t.channel), q);
    var p10 := p9 + " nfin = ";
    PrefixAppend(p9, " nfin = ", q);
    var p11 := p10 + IntStr(t.nfin);
    PrefixAppend(p10, IntStr(t.nfin), q);
    PrefixAppend(p11, "\n", q);
    assert Line(name, i, t) == p11 + "\n";
  }

  lemma LinesEnd(name: string, ts: seq<Transistor>)
    requires |ts| >= 1
    ensures EndsWith(Concat(Lines(name, ts)) + "\n", "\n\n")
  {
    var ls := Lines(name, ts);
    var n := |ts| - 1;
    var last := Line(name, n, ts[n]);
    assert last == "M" + name + "m" + NatStr(n) + " " + ts[n].drain + " " + ts[n].gate + " " + ts[n].source + " "
      + ts[n].bulk + " " + ChannelModel(ts[n].channel) + " nfin = " + IntStr(ts[n].nfin) + "\n";
    assert last[|last| - 1] == '\n';
    ConcatEnd(ls);
  }

  /** A concatenation whose last piece ends a line, followed by a line
      break, ends with an empty line. */
  lemma ConcatEnd(ls: seq<string>)
    requires |ls| >= 1 && |ls[|ls| - 1]| >= 1 && ls[|ls| - 1][|ls[|ls| - 1]| - 1] == '\n'
    ensures EndsWith(Concat(ls) + "\n", "\n\n")
  {
    var last := ls[|ls| - 1];
    assert Concat(ls) == Concat(ls[..|ls| - 1]) + last;
    var r := Concat(ls) + "\n";
    assert r[|r| - 2] == '\n';
    assert r[|r| - 2..] == "\n\n";
  }

  lemma PrefixAppend(a: string, b: string, p: string)
    requires StartsWith(a, p)
    ensures StartsWith(a + b, p)
  {
    assert (a + b)[..|p|] == a[..|p|];
  }
}
