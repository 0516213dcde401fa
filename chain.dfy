/** The gate chains the graph generator wires, once its random draws are
    fixed: the dictionaries it hands to the circuit constructor, and the
    circuit those dictionaries build. */
module Chains {
  import opened Wrappers
  import opened Text
  import opened Components
  import opened Gates
  import opened VoltageSources
  import opened EndOfSequences
  import opened CircuitSpec
  import opened Numbering
  import opened Sorting
  import opened Circuits

  function GateKey(n: nat): string {
    "gate" + NatStr(n)
  }

  function DriverKey(n: nat): string {
    "v" + NatStr(n)
  }

  /** The drivers of a chain whose first gate has type t: v1 .. v<fan-in>. */
  function Drivers(t: GateType): (r: seq<string>)
    ensures |r| == FanIn(t)
  {
    seq(FanIn(t), j requires 0 <= j < FanIn(t) => DriverKey(j + 1))
  }

  /** A list of strings as a configuration value. */
  function Names(names: seq<string>): (v: Value)
    ensures IsNameList(v) && |v.items| == |names|
  {
    List(seq(|names|, j requires 0 <= j < |names| => Str(names[j])))
  }

  /** The input names of gate i + 1: the drivers for the first gate, and
      fan-in copies of gate<i> for every later one. */
  function ChainInputNames(types: seq<GateType>, i: nat): (r: seq<string>)
    requires i < |types|
    ensures |r| == FanIn(types[i])
  {
    if i == 0 then Drivers(types[0])
    else seq(FanIn(types[i]), _ => GateKey(i))
  }

  function GateEntry(t: GateType, k: int, names: seq<string>): Config {
    map["type" := Str(TypeName(t)), "k" := Int(k), "input_components" := Names(names)]
  }

  /** The gate dictionary of a chain: gate1 .. gate<n> in order. */
  function ChainGateDict(types: seq<GateType>, sizes: seq<int>): (gd: Dict<Config>)
    requires |sizes| == |types|
    ensures |gd| == |types|
  {
    seq(|types|, i requires 0 <= i < |types| => (GateKey(i + 1), GateEntry(types[i], sizes[i], ChainInputNames(types, i))))
  }

  /** Every driver is a non-ideal source with its own sizing. */
  function DriverEntry(k: int): Config {
    map["ideal" := Bool(false), "k" := Int(k)]
  }

  function DriverDict(sizes: seq<int>): (vd: Dict<Config>)
    ensures |vd| == |sizes|
  {
    seq(|sizes|, j requires 0 <= j < |sizes| => (DriverKey(j + 1), DriverEntry(sizes[j])))
  }

  /** The end of sequence loads the last gate with 10 fF. */
  function EosDict(k: int, n: nat): Config {
    map["k" := Int(k), "input_gate" := Str(GateKey(n)), "capacitance" := Int(10)]
  }

  /** The number of inverting gates in the list. */
  function InvertingCount(types: seq<GateType>): (n: nat)
    ensures n <= |types|
  {
    if types == [] then 0
    else InvertingCount(types[..|types| - 1]) + (if IsInverting(types[|types| - 1]) then 1 else 0)
  }

  /** The chain inverts its input exactly when it holds an odd number of
      inverting gates. */
  predicate ChainInverting(types: seq<GateType>) {
    InvertingCount(types) % 2 == 1
  }

  /** Counting splits over a concatenation of gate lists. */
  lemma {:induction false} InvertingCountAppend(a: seq<GateType>, b: seq<GateType>)
    ensures InvertingCount(a + b) == InvertingCount(a) + InvertingCount(b)
  {
    if b != [] {
      assert (a + b)[..|a + b| - 1] == a + b[..|b| - 1];
      InvertingCountAppend(a, b[..|b| - 1]);
    } else {
      assert a + b == a;
    }
  }

  /** One more gate flips the polarity of the chain exactly when it is
      inverting (1NOT, 2NAND, 2NOR). */
  lemma InvertingExtend(types: seq<GateType>, t: GateType)
    ensures ChainInverting(types + [t]) <==> (ChainInverting(types) != IsInverting(t))
  {
    InvertingCountAppend(types, [t]);
    assert [t][..0] == [];
  }

  /** The shape the draws must have. */
  predicate ChainShape(types: seq<GateType>, sizes: seq<int>, driverSizes: seq<int>) {
    |types| >= 1 && |sizes| == |types| && |driverSizes| == FanIn(types[0])
  }

  // ---------------------------------------------------------------------
  // What the dictionaries build.

  /** The non-ideal driver source v<j+1><circuit>, with its 1NOT driver. */
  function ChainSource(circuit: string, driverSizes: seq<int>, j: nat): VoltageSource
    requires j < |driverSizes|
  {
    var name := DriverKey(j + 1) + circuit;
    var driver := Gate(Not1, name + "driver", driverSizes[j], [S(Bare(name))]);
    VoltageSource(name, Some(driver), GateOutput(driver))
  }

  function ChainSources(circuit: string, driverSizes: seq<int>): (r: Dict<VoltageSource>)
    ensures |r| == |driverSizes|
  {
    seq(|driverSizes|, j requires 0 <= j < |driverSizes| => (DriverKey(j + 1) + circuit, ChainSource(circuit, driverSizes, j)))
  }

  /** Gate i of the built chain: the first is fed by the driver sources, each
      later one by fan-in copies of the gate before it. */
  function ChainGate(circuit: string, types: seq<GateType>, sizes: seq<int>, driverSizes: seq<int>, i: nat): (g: Gate)
    requires ChainShape(types, sizes, driverSizes) && i < |types|
    ensures g.gtype == types[i] && g.name == GateKey(i + 1) + circuit && g.k == sizes[i]
    ensures WellFormed(g)
    decreases i
  {
    var inputs :=
      if i == 0 then seq(FanIn(types[0]), j requires 0 <= j < FanIn(types[0]) => S(ChainSource(circuit, driverSizes, j)))
      else seq(FanIn(types[i]), _ => G(ChainGate(circuit, types, sizes, driverSizes, i - 1)));
    Gate(types[i], GateKey(i + 1) + circuit, sizes[i], inputs)
  }

  function ChainGates(circuit: string, types: seq<GateType>, sizes: seq<int>, driverSizes: seq<int>): (r: Dict<Gate>)
    requires ChainShape(types, sizes, driverSizes)
    ensures |r| == |types|
  {
    seq(|types|, i requires 0 <= i < |types| => (GateKey(i + 1) + circuit, ChainGate(circuit, types, sizes, driverSizes, i)))
  }

  function ChainEos(circuit: string, types: seq<GateType>, sizes: seq<int>, driverSizes: seq<int>, k: int): EndOfSequence
    requires ChainShape(types, sizes, driverSizes)
  {
    var last := ChainGate(circuit, types, sizes, driverSizes, |types| - 1);
    EndOfSequence(k, circuit, last, Int(10), Gate(Not1, circuit + "EOS", k, [G(last)]))
  }

  // ---------------------------------------------------------------------
  // Keys.

  lemma GateKeyInjective(a: nat, b: nat, suffix: string)
    requires GateKey(a) + suffix == GateKey(b) + suffix
    ensures a == b
  {
    SuffixInjective(GateKey(a), GateKey(b), suffix);
    assert NatStr(a) == GateKey(a)[4..] && NatStr(b) == GateKey(b)[4..];
    NatStrInjective(a, b);
  }

  lemma DriverKeyInjective(a: nat, b: nat, suffix: string)
    requires DriverKey(a) + suffix == DriverKey(b) + suffix
    ensures a == b
  {
    SuffixInjective(DriverKey(a), DriverKey(b), suffix);
    assert NatStr(a) == DriverKey(a)[1..] && NatStr(b) == DriverKey(b)[1..];
    NatStrInjective(a, b);
  }

  /** A gate key and a driver key never meet, whatever the suffix. */
  lemma KeysDiffer(a: nat, b: nat, suffix: string)
    ensures GateKey(a) + suffix != DriverKey(b) + suffix
  {
    assert (GateKey(a) + suffix)[0] == 'g' && (DriverKey(b) + suffix)[0] == 'v';
  }

  /** The dictionaries the chain hands over have distinct keys. */
  lemma ChainKeysDistinct(types: seq<GateType>, sizes: seq<int>, driverSizes: seq<int>, circuit: string)
    requires |sizes| == |types|
    ensures DistinctKeys(ChainGateDict(types, sizes)) && DistinctKeys(DriverDict(driverSizes))
    ensures DistinctKeys(ChainSources(circuit, driverSizes))
  {
    forall i, j | 0 <= i < j < |types| ensures ChainGateDict(types, sizes)[i].0 != ChainGateDict(types, sizes)[j].0 {
      if GateKey(i + 1) == GateKey(j + 1) {
        assert GateKey(i + 1) + "" == GateKey(j + 1) + "";
        GateKeyInjective(i + 1, j + 1, "");
      }
    }
    forall i, j | 0 <= i < j < |driverSizes| ensures DriverDict(driverSizes)[i].0 != DriverDict(driverSizes)[j].0 {
      if DriverKey(i + 1) == DriverKey(j + 1) {
        assert DriverKey(i + 1) + "" == DriverKey(j + 1) + "";
        DriverKeyInjective(i + 1, j + 1, "");
      }
    }
    forall i, j | 0 <= i < j < |driverSizes| ensures ChainSources(circuit, driverSizes)[i].0 != ChainSources(circuit, driverSizes)[j].0 {
      if DriverKey(i + 1) + circuit == DriverKey(j + 1) + circuit {
        DriverKeyInjective(i + 1, j + 1, circuit);
      }
    }
  }

  // ---------------------------------------------------------------------
  // Namespacing.

  function SuffixAll(names: seq<string>, suffix: string): (r: seq<string>)
    ensures |r| == |names|
  {
    seq(|names|, j requires 0 <= j < |names| => names[j] + suffix)
  }

  /** The gate dictionary after namespacing with the circuit name. */
  function NamedChainDict(types: seq<GateType>, sizes: seq<int>, circuit: string): (gd: Dict<Config>)
    requires |sizes| == |types|
    ensures |gd| == |types| && Namespaced(gd)
  {
    seq(|types|, i requires 0 <= i < |types| =>
      (GateKey(i + 1) + circuit, GateEntry(types[i], sizes[i], SuffixAll(ChainInputNames(types, i), circuit))))
  }

  lemma SuffixNames(names: seq<string>, suffix: string)
    ensures SuffixedNames(Names(names), suffix) == Ok(Names(SuffixAll(names, suffix)))
  {
    var items := Names(names).items;
    assert seq(|items|, i requires 0 <= i < |items| => Str(items[i].s + suffix)) == Names(SuffixAll(names, suffix)).items;
  }

  /** Namespacing rebinds the input names of an entry and nothing else. */
  lemma EntryRenamed(t: GateType, k: int, names: seq<string>, suffix: string)
    ensures GateEntry(t, k, names)["input_components" := Names(SuffixAll(names, suffix))]
         == GateEntry(t, k, SuffixAll(names, suffix))
  {
  }

  lemma NamespaceChain(types: seq<GateType>, sizes: seq<int>, circuit: string)
    requires |sizes| == |types|
    ensures NamespaceGates(ChainGateDict(types, sizes), circuit) == Ok(NamedChainDict(types, sizes, circuit))
  {
    var gd := ChainGateDict(types, sizes);
    var named := NamedChainDict(types, sizes, circuit);
    forall j | 0 <= j < |gd|
      ensures "input_components" in gd[j].1 && SuffixedNames(gd[j].1["input_components"], circuit).Ok?
    {
      SuffixNames(ChainInputNames(types, j), circuit);
    }
    NamespacePrefixOk(gd, circuit);
    var r := NamespaceGates(gd, circuit).value;
    forall i | 0 <= i < |gd| ensures r[i] == named[i] {
      NamespacedEntry(gd, circuit, i);
      var names := ChainInputNames(types, i);
      SuffixNames(names, circuit);
      EntryRenamed(types[i], sizes[i], names, circuit);
    }
    assert r == named;
  }

  // ---------------------------------------------------------------------
  // Sources.

  lemma {:induction false} BuildChainSources(driverSizes: seq<int>, circuit: string, m: nat)
    requires m <= |driverSizes|
    ensures BuildSources(Suffixed(DriverDict(driverSizes), circuit)[..m]) == Ok(ChainSources(circuit, driverSizes)[..m])
  {
    var vd := Suffixed(DriverDict(driverSizes), circuit);
    if m > 0 {
      BuildChainSources(driverSizes, circuit, m - 1);
      assert vd[..m][..m - 1] == vd[..m - 1];
      var key := DriverKey(m) + circuit;
      assert vd[..m][m - 1] == (key, DriverEntry(driverSizes[m - 1]));
      ChainSourceBuilds(driverSizes, circuit, m - 1);
      PrefixStep(ChainSources(circuit, driverSizes), m - 1);
    }
  }

  /** Driver j's configuration, under its namespaced key, builds source j. */
  lemma ChainSourceBuilds(driverSizes: seq<int>, circuit: string, j: nat)
    requires j < |driverSizes|
    ensures VoltageSourceOf(DriverEntry(driverSizes[j])["name" := Str(DriverKey(j + 1) + circuit)])
            == Ok(ChainSource(circuit, driverSizes, j))
  {
  }

  // ---------------------------------------------------------------------
  // Gates.

  /** Resolving `name` finds `c`: a gate among those built, or else a source. */
  predicate ResolvesTo(name: Value, built: Dict<Gate>, sources: Dict<VoltageSource>, c: Component) {
    && name.Str?
    && if c.G? then Lookup(built, name.s) == Some(c.gate)
       else Lookup(built, name.s).None? && Lookup(sources, name.s) == Some(c.source)
  }

  lemma {:induction false} ResolvePrefix(names: seq<Value>, built: Dict<Gate>, sources: Dict<VoltageSource>, out: seq<Component>, m: nat)
    requires |names| == |out| && m <= |names|
    requires forall j :: 0 <= j < |names| ==> names[j].Str?
    requires forall j :: 0 <= j < |names| ==> ResolvesTo(names[j], built, sources, out[j])
    ensures Resolve(names[..m], built, sources) == out[..m]
  {
    if m > 0 {
      ResolvePrefix(names, built, sources, out, m - 1);
      var p := names[..m];
      assert p[..m - 1] == names[..m - 1];
      assert p[m - 1] == names[m - 1];
      assert ResolvesTo(names[m - 1], built, sources, out[m - 1]);
      assert out[..m] == out[..m - 1] + [out[m - 1]];
    }
  }

  /** Resolution finds, name by name, the components `out` lists. */
  lemma ResolveTo(names: seq<Value>, built: Dict<Gate>, sources: Dict<VoltageSource>, out: seq<Component>)
    requires |names| == |out| && forall j :: 0 <= j < |names| ==> ResolvesTo(names[j], built, sources, out[j])
    ensures forall j :: 0 <= j < |names| ==> names[j].Str?
    ensures Resolve(names, built, sources) == out
  {
    assert forall j :: 0 <= j < |names| ==> names[j].Str? by {
      forall j | 0 <= j < |names| ensures names[j].Str? {
        assert ResolvesTo(names[j], built, sources, out[j]);
      }
    }
    ResolvePrefix(names, built, sources, out, |names|);
    assert names[..|names|] == names && out[..|out|] == out;
  }

  /** The first gate's inputs resolve to the driver sources. */
  lemma FirstInputs(circuit: string, types: seq<GateType>, sizes: seq<int>, driverSizes: seq<int>)
    requires ChainShape(types, sizes, driverSizes)
    ensures var names := Names(SuffixAll(ChainInputNames(types, 0), circuit)).items;
      Resolve(names, [], ChainSources(circuit, driverSizes)) == ChainGate(circuit, types, sizes, driverSizes, 0).inputs
  {
    var names := Names(SuffixAll(ChainInputNames(types, 0), circuit)).items;
    var sources := ChainSources(circuit, driverSizes);
    var out := ChainGate(circuit, types, sizes, driverSizes, 0).inputs;
    ChainKeysDistinct(types, sizes, driverSizes, circuit);
    forall j | 0 <= j < |names| ensures ResolvesTo(names[j], [], sources, out[j]) {
      LookupEntry(sources, j);
    }
    ResolveTo(names, [], sources, out);
  }

  /** A later gate's inputs all resolve to the gate before it. */
  lemma LaterInputs(circuit: string, types: seq<GateType>, sizes: seq<int>, driverSizes: seq<int>, i: nat)
    requires ChainShape(types, sizes, driverSizes) && 0 < i < |types|
    ensures var names := Names(SuffixAll(ChainInputNames(types, i), circuit)).items;
      Resolve(names, ChainGates(circuit, types, sizes, driverSizes)[..i], ChainSources(circuit, driverSizes))
      == ChainGate(circuit, types, sizes, driverSizes, i).inputs
  {
    var names := Names(SuffixAll(ChainInputNames(types, i), circuit)).items;
    var built := ChainGates(circuit, types, sizes, driverSizes)[..i];
    var out := ChainGate(circuit, types, sizes, driverSizes, i).inputs;
    var prev := ChainGate(circuit, types, sizes, driverSizes, i - 1);
    assert built[i - 1] == (GateKey(i) + circuit, prev);
    assert Lookup(built, GateKey(i) + circuit) == Some(prev);
    forall j | 0 <= j < |names| ensures ResolvesTo(names[j], built, ChainSources(circuit, driverSizes), out[j]) {
      assert names[j] == Str(GateKey(i) + circuit);
      assert out[j] == G(prev);
    }
    ResolveTo(names, built, ChainSources(circuit, driverSizes), out);
  }

  /** A gate's own configuration constructs that very gate. */
  lemma NewGateOfParts(g: Gate)
    requires WellFormed(g)
    ensures NewGate(map["name" := Str(g.name), "type" := Str(TypeName(g.gtype)), "k" := Int(g.k),
                        "input_components" := ComponentList(g.inputs)]) == Ok(g)
  {
    assert ParseGateType(TypeName(g.gtype)) == Some(g.gtype) by {
      match g.gtype
      case Nand2 => case Not1 => case Nor2 => case And2 => case Or2 =>
    }
    var items := ComponentList(g.inputs).items;
    assert ComponentsOf(items) == g.inputs;
  }

  /** Building gate i against the gates before it yields ChainGate i. */
  lemma BuildChainGate(circuit: string, types: seq<GateType>, sizes: seq<int>, driverSizes: seq<int>, i: nat)
    requires ChainShape(types, sizes, driverSizes) && i < |types|
    ensures var gd := NamedChainDict(types, sizes, circuit);
      BuildGate(gd[i].0, gd[i].1, ChainGates(circuit, types, sizes, driverSizes)[..i], ChainSources(circuit, driverSizes))
      == Ok(ChainGate(circuit, types, sizes, driverSizes, i))
  {
    var gd := NamedChainDict(types, sizes, circuit);
    var g := ChainGate(circuit, types, sizes, driverSizes, i);
    var built := ChainGates(circuit, types, sizes, driverSizes)[..i];
    var sources := ChainSources(circuit, driverSizes);
    var names := Names(SuffixAll(ChainInputNames(types, i), circuit));
    assert gd[i] == (g.name, GateEntry(g.gtype, g.k, SuffixAll(ChainInputNames(types, i), circuit)));
    if i == 0 {
      assert built == [];
      FirstInputs(circuit, types, sizes, driverSizes);
    } else {
      LaterInputs(circuit, types, sizes, driverSizes, i);
    }
    assert Resolve(names.items, built, sources) == g.inputs;
    assert GateConfigOf(gd[i].0, gd[i].1, built, sources)
        == Ok(map["name" := Str(g.name), "type" := Str(TypeName(g.gtype)), "k" := Int(g.k),
                  "input_components" := ComponentList(g.inputs)]);
    NewGateOfParts(g);
  }

  lemma {:induction false} BuildChainGates(circuit: string, types: seq<GateType>, sizes: seq<int>, driverSizes: seq<int>, m: nat)
    requires ChainShape(types, sizes, driverSizes) && m <= |types|
    ensures BuildGates(NamedChainDict(types, sizes, circuit)[..m], ChainSources(circuit, driverSizes))
            == Ok(ChainGates(circuit, types, sizes, driverSizes)[..m])
  {
    var gd := NamedChainDict(types, sizes, circuit);
    var sources := ChainSources(circuit, driverSizes);
    var gates := ChainGates(circuit, types, sizes, driverSizes);
    if m > 0 {
      BuildChainGates(circuit, types, sizes, driverSizes, m - 1);
      BuildGatesStep(gd, sources, m - 1);
      BuildChainGate(circuit, types, sizes, driverSizes, m - 1);
      assert gd[m - 1].0 == gates[m - 1].0 == GateKey(m) + circuit;
      PrefixStep(gates, m - 1);
    } else {
      assert gd[..0] == [];
    }
  }

  lemma PrefixStep<T>(s: seq<T>, i: nat)
    requires i < |s|
    ensures s[..i + 1] == s[..i] + [s[i]]
  {
  }

  // ---------------------------------------------------------------------
  // The end of sequence, and the whole circuit.

  lemma BuildChainEos(circuit: string, types: seq<GateType>, sizes: seq<int>, driverSizes: seq<int>, k: int)
    requires ChainShape(types, sizes, driverSizes)
    ensures NamespaceEos(EosDict(k, |types|), circuit).Ok?
    ensures BuildEos(circuit, NamespaceEos(EosDict(k, |types|), circuit).value, ChainGates(circuit, types, sizes, driverSizes))
            == Ok(ChainEos(circuit, types, sizes, driverSizes, k))
  {
    var gates := ChainGates(circuit, types, sizes, driverSizes);
    var n := |types|;
    var last := ChainGate(circuit, types, sizes, driverSizes, n - 1);
    assert gates[n - 1] == (GateKey(n) + circuit, last);
    assert Lookup(gates, GateKey(n) + circuit) == Some(last);
    var eos0 := NamespaceEos(EosDict(k, n), circuit).value;
    var config := eos0["name" := Str(circuit)]["input_gate" := Comp(G(last))];
    assert GoodEosConfig(config);
    EosFields(config);
  }

  /** After namespacing, sources, gates and end of sequence all build. */
  lemma ChainParts(circuit: string, types: seq<GateType>, sizes: seq<int>, driverSizes: seq<int>, k: int)
    requires ChainShape(types, sizes, driverSizes)
    requires NamespaceEos(EosDict(k, |types|), circuit).Ok?
    ensures BuildParts(circuit, NamedChainDict(types, sizes, circuit), NamespaceEos(EosDict(k, |types|), circuit).value,
                       Suffixed(DriverDict(driverSizes), circuit))
            == Ok(Built(ChainSources(circuit, driverSizes), ChainGates(circuit, types, sizes, driverSizes),
                        ChainEos(circuit, types, sizes, driverSizes, k)))
  {
    AllChainSources(driverSizes, circuit);
    AllChainGates(circuit, types, sizes, driverSizes);
    BuildChainEos(circuit, types, sizes, driverSizes, k);
  }

  lemma AllChainSources(driverSizes: seq<int>, circuit: string)
    ensures BuildSources(Suffixed(DriverDict(driverSizes), circuit)) == Ok(ChainSources(circuit, driverSizes))
  {
    var vd := Suffixed(DriverDict(driverSizes), circuit);
    var sources := ChainSources(circuit, driverSizes);
    BuildChainSources(driverSizes, circuit, |driverSizes|);
    assert vd[..|vd|] == vd;
    assert sources[..|driverSizes|] == sources;
  }

  lemma AllChainGates(circuit: string, types: seq<GateType>, sizes: seq<int>, driverSizes: seq<int>)
    requires ChainShape(types, sizes, driverSizes)
    ensures BuildGates(NamedChainDict(types, sizes, circuit), ChainSources(circuit, driverSizes))
            == Ok(ChainGates(circuit, types, sizes, driverSizes))
  {
    var gd := NamedChainDict(types, sizes, circuit);
    var gates := ChainGates(circuit, types, sizes, driverSizes);
    BuildChainGates(circuit, types, sizes, driverSizes, |types|);
    assert gd[..|gd|] == gd;
    assert gates[..|types|] == gates;
  }

  /** The dictionaries of a chain build, under any circuit name, exactly the
      chain: the driver sources, the gates wired one after another, and the
      end of sequence on the last gate. */
  lemma ChainBuilds(circuit: string, types: seq<GateType>, sizes: seq<int>, driverSizes: seq<int>, k: int)
    requires ChainShape(types, sizes, driverSizes)
    ensures BuildCircuit(circuit, ChainGateDict(types, sizes), DriverDict(driverSizes), EosDict(k, |types|))
            == Ok(Built(ChainSources(circuit, driverSizes), ChainGates(circuit, types, sizes, driverSizes),
                        ChainEos(circuit, types, sizes, driverSizes, k)))
  {
    NamespaceChain(types, sizes, circuit);
    BuildChainEos(circuit, types, sizes, driverSizes, k);
    ChainParts(circuit, types, sizes, driverSizes, k);
  }

  // ---------------------------------------------------------------------
  // The graph of a chain.

  /** Gate i + 1 is numbered i and every driver source -1, so the chain is
      numbered the way the matrices need. */
  lemma ChainNumbered(circuit: string, types: seq<GateType>, sizes: seq<int>, driverSizes: seq<int>)
    requires ChainShape(types, sizes, driverSizes)
    ensures var gates := ChainGates(circuit, types, sizes, driverSizes);
      && Numbered(circuit, gates, ChainSources(circuit, driverSizes))
      && forall i :: 0 <= i < |gates| ==> GateNumber(circuit, gates[i].0) == Ok(i)
  {
    var gates := ChainGates(circuit, types, sizes, driverSizes);
    var sources := ChainSources(circuit, driverSizes);
    forall i | 0 <= i < |gates| ensures GateNumber(circuit, gates[i].0) == Ok(i) {
      GateNumberOfGateName(circuit, i + 1);
    }
    forall j | 0 <= j < |sources| ensures GateNumber(circuit, sources[j].0) == Ok(-1) {
      assert DriverKey(j + 1)[0] == 'v';
      GateNumberOfOtherName(circuit, DriverKey(j + 1));
    }
  }

  /** n copies of one edge. */
  function Copies(e: Edge, n: nat): (r: seq<Edge>)
    ensures |r| == n && forall j :: 0 <= j < n ==> r[j] == e
  {
    seq(n, _ => e)
  }

  /** Inputs that all carry the same number sn give one edge (sn, d) each,
      or none when either end is numbered -1. */
  lemma {:induction false} InputEdgesUniform(circuit: string, d: int, inputs: seq<Component>, sn: int)
    requires forall j :: 0 <= j < |inputs| ==> GateNumber(circuit, ComponentName(inputs[j])) == Ok(sn)
    ensures InputEdges(circuit, d, inputs)
            == Ok(if sn != -1 && d != -1 then Copies((sn, d), |inputs|) else [])
  {
    if inputs != [] {
      var n := |inputs| - 1;
      InputEdgesUniform(circuit, d, inputs[..n], sn);
      assert GateNumber(circuit, ComponentName(inputs[n])) == Ok(sn);
      assert Copies((sn, d), n + 1) == Copies((sn, d), n) + [(sn, d)];
    }
  }

  /** The edges into gate i of the chain: none for the first gate, whose
      inputs are sources, and fan-in copies of (i - 1, i) for the others. */
  lemma ChainInputEdges(circuit: string, types: seq<GateType>, sizes: seq<int>, driverSizes: seq<int>, i: nat)
    requires ChainShape(types, sizes, driverSizes) && i < |types|
    ensures var g := ChainGate(circuit, types, sizes, driverSizes, i);
      InputEdges(circuit, i, g.inputs) == Ok(if i == 0 then [] else Copies((i - 1, i), FanIn(types[i])))
  {
    var g := ChainGate(circuit, types, sizes, driverSizes, i);
    if i == 0 {
      forall j | 0 <= j < |g.inputs| ensures GateNumber(circuit, ComponentName(g.inputs[j])) == Ok(-1) {
        assert DriverKey(j + 1)[0] == 'v';
        GateNumberOfOtherName(circuit, DriverKey(j + 1));
      }
      InputEdgesUniform(circuit, i, g.inputs, -1);
    } else {
      GateNumberOfGateName(circuit, i);
      assert forall j :: 0 <= j < |g.inputs| ==> ComponentName(g.inputs[j]) == GateKey(i) + circuit;
      InputEdgesUniform(circuit, i, g.inputs, i - 1);
    }
  }

  /** Gates numbered in order, each fed only by the gate before it (the
      first by sources alone), have as edges of their first m gates the
      steps from each gate to the next. */
  ghost predicate PathWired(circuit: string, gates: Dict<Gate>) {
    forall i :: 0 <= i < |gates| ==>
      && gates[i].1.name == gates[i].0 && GateNumber(circuit, gates[i].0) == Ok(i)
      && InputEdges(circuit, i, gates[i].1.inputs).Ok?
      && forall e :: e in InputEdges(circuit, i, gates[i].1.inputs).value <==> i > 0 && e == (i - 1, i)
  }

  lemma {:induction false} PathEdgesPrefix(circuit: string, gates: Dict<Gate>, m: nat)
    requires PathWired(circuit, gates) && m <= |gates|
    ensures var r := EdgeList(circuit, gates[..m]);
      r.Ok? && forall e :: e in r.value <==> 1 <= e.1 < m && e.0 == e.1 - 1
  {
    if m == 0 {
      assert gates[..0] == [];
    } else {
      PathEdgesPrefix(circuit, gates, m - 1);
      var prefix := EdgeList(circuit, gates[..m - 1]).value;
      var more := InputEdges(circuit, m - 1, gates[m - 1].1.inputs).value;
      EdgeListExtend(circuit, gates, m - 1);
      StepsAppend(prefix, more, m);
    }
  }

  /** The steps below gate m - 1, followed by the step into it, are the
      steps below gate m. */
  lemma StepsAppend(prefix: seq<Edge>, more: seq<Edge>, m: nat)
    requires m >= 1
    requires forall e :: e in prefix <==> 1 <= e.1 < m - 1 && e.0 == e.1 - 1
    requires forall e :: e in more <==> m - 1 > 0 && e == (m - 2, m - 1)
    ensures forall e :: e in prefix + more <==> 1 <= e.1 < m && e.0 == e.1 - 1
  {
    forall e: Edge ensures e in prefix + more <==> 1 <= e.1 < m && e.0 == e.1 - 1 {
      assert e in more <==> m - 1 > 0 && e.0 == m - 2 && e.1 == m - 1;
      assert e in prefix + more <==> e in prefix || e in more;
    }
  }

  /** The chain is wired as a path. */
  lemma ChainPathWired(circuit: string, types: seq<GateType>, sizes: seq<int>, driverSizes: seq<int>)
    requires ChainShape(types, sizes, driverSizes)
    ensures PathWired(circuit, ChainGates(circuit, types, sizes, driverSizes))
  {
    var gates := ChainGates(circuit, types, sizes, driverSizes);
    ChainNumbered(circuit, types, sizes, driverSizes);
    forall i | 0 <= i < |gates|
      ensures InputEdges(circuit, i, gates[i].1.inputs).Ok?
      ensures forall e :: e in InputEdges(circuit, i, gates[i].1.inputs).value <==> i > 0 && e == (i - 1, i)
    {
      ChainInputEdges(circuit, types, sizes, driverSizes, i);
      if i > 0 {
        assert Copies((i - 1, i), FanIn(types[i]))[0] == (i - 1, i);
      }
    }
  }

  /** The path 0 -> 1 -> ... -> n - 1. */
  function ChainPath(n: nat): (p: seq<Edge>)
    requires n >= 1
    ensures |p| == n - 1
  {
    seq(n - 1, i requires 0 <= i < n - 1 => (i, i + 1))
  }

  /** The edges of a chain of n gates are exactly the steps of the path
      through them. */
  lemma ChainEdges(circuit: string, types: seq<GateType>, sizes: seq<int>, driverSizes: seq<int>)
    requires ChainShape(types, sizes, driverSizes)
    ensures var r := EdgeList(circuit, ChainGates(circuit, types, sizes, driverSizes));
      r.Ok? && forall e :: e in r.value <==> e in ChainPath(|types|)
  {
    var gates := ChainGates(circuit, types, sizes, driverSizes);
    ChainPathWired(circuit, types, sizes, driverSizes);
    PathEdgesPrefix(circuit, gates, |types|);
    assert gates[..|types|] == gates;
    PathMembers(|types|);
  }

  /** The path holds exactly the steps from one gate to the next. */
  lemma PathMembers(n: nat)
    requires n >= 1
    ensures forall e :: e in ChainPath(n) <==> 1 <= e.1 < n && e.0 == e.1 - 1
  {
    forall e: Edge | 1 <= e.1 < n && e.0 == e.1 - 1 ensures e in ChainPath(n) {
      assert ChainPath(n)[e.0] == e;
    }
  }

  /** The sorted, duplicate-free edge list of a chain of n gates is the path
      itself: there is only one order its edges can come in. */
  lemma AdjacencyListIsPath(n: nat, r: seq<Edge>)
    requires n >= 1 && SortedByFirst(r) && NoDuplicates(r)
    requires forall e :: e in r <==> e in ChainPath(n)
    ensures r == ChainPath(n)
  {
    var p := ChainPath(n);
    assert NoDuplicates(p);
    SameMembersPermutation(p, r);
    SortedUnique(p, r);
  }

  /** On the chain the adjacency matrix holds 1 from each gate to the next,
      -1 back, and 0 everywhere else. */
  lemma ChainMatrixEntry(circuit: string, types: seq<GateType>, sizes: seq<int>, driverSizes: seq<int>, s: int, d: int)
    requires ChainShape(types, sizes, driverSizes)
    ensures EdgeList(circuit, ChainGates(circuit, types, sizes, driverSizes)).Ok?
    ensures MatrixEntry(EdgeSet(EdgeList(circuit, ChainGates(circuit, types, sizes, driverSizes)).value), s, d)
            == if 0 <= s && d == s + 1 < |types| then 1 else if 0 <= d && s == d + 1 < |types| then -1 else 0
  {
    ChainEdges(circuit, types, sizes, driverSizes);
    PathEntry(EdgeList(circuit, ChainGates(circuit, types, sizes, driverSizes)).value, |types|, s, d);
  }

  lemma PathEntry(edges: seq<Edge>, n: nat, s: int, d: int)
    requires n >= 1 && forall e :: e in edges <==> e in ChainPath(n)
    ensures MatrixEntry(EdgeSet(edges), s, d)
            == if 0 <= s && d == s + 1 < n then 1 else if 0 <= d && s == d + 1 < n then -1 else 0
  {
    PathMembers(n);
    assert (s, d) in edges <==> 0 <= s && d == s + 1 < n;
    assert (d, s) in edges <==> 0 <= d && s == d + 1 < n;
    assert (s, d) in EdgeSet(edges) <==> (s, d) in edges;
    assert (d, s) in EdgeSet(edges) <==> (d, s) in edges;
  }

  /** Feature row of gate i + 1: its number i, its type index, the first
      gate's sizing, the end-of-sequence sizing, and its own sizing. */
  lemma ChainFeatureRow(circuit: string, types: seq<GateType>, sizes: seq<int>, driverSizes: seq<int>, k: int, i: nat)
    requires ChainShape(types, sizes, driverSizes) && i < |types|
    ensures var gates := ChainGates(circuit, types, sizes, driverSizes);
      GateNumber(circuit, gates[i].0) == Ok(i)
      && FeatureRow(circuit, gates, k, i) == [i, TypeIndex(types[i]) as int, sizes[0], k, sizes[i]]
  {
    ChainNumbered(circuit, types, sizes, driverSizes);
  }

  /** The idealized chain differs from the drawn one only in the gate
      sizings: same keys, types and sources, and the same graph. */
  lemma IdealSameGraph(circuit: string, types: seq<GateType>, sizes: seq<int>, weights: seq<int>, driverSizes: seq<int>)
    requires ChainShape(types, sizes, driverSizes) && |weights| == |types|
    ensures var drawn := ChainGates(circuit, types, sizes, driverSizes);
      var ideal := ChainGates(circuit, types, weights, driverSizes);
      && (forall i :: 0 <= i < |types| ==>
            ideal[i].0 == drawn[i].0 && ideal[i].1.gtype == drawn[i].1.gtype
            && drawn[i].1.k == sizes[i] && ideal[i].1.k == weights[i])
      && EdgeList(circuit, drawn).Ok? && EdgeList(circuit, ideal).Ok?
      && forall e :: e in EdgeList(circuit, drawn).value <==> e in EdgeList(circuit, ideal).value
  {
    ChainEdges(circuit, types, sizes, driverSizes);
    ChainEdges(circuit, types, weights, driverSizes);
  }

  /** A constructed circuit holding the chain. */
  ghost predicate HoldsChain(c: Circuit, name: string, inverting: bool,
                             types: seq<GateType>, sizes: seq<int>, driverSizes: seq<int>, eosK: int)
    reads c
  {
    && ChainShape(types, sizes, driverSizes)
    && c.Structured() && c.name == name && c.inverting == inverting
    && c.voltageSources == ChainSources(name, driverSizes)
    && c.gates == ChainGates(name, types, sizes, driverSizes)
    && c.eos == Some(ChainEos(name, types, sizes, driverSizes, eosK))
  }
}
