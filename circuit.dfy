/** The circuit object: built from a gate dictionary, a voltage-source
    dictionary and an end-of-sequence dictionary, it owns its sources, gates
    and end of sequence, keeps its SPICE netlist, and derives the graph of
    the circuit as an adjacency list, an adjacency matrix and a feature matrix. */
module Circuits {
  import opened Wrappers
  import opened Text
  import opened Components
  import opened Gates
  import opened VoltageSources
  import opened EndOfSequences
  import opened CircuitSpec
  import opened Numbering
  import opened Sorting

  /** The fixed parts of a netlist. */
  const Header: string := "/////////////////////3 STAGE NAND/////////////////////////////\n"
                          + ".inc \"/home/lalithsai20/EMDproject/7nm_TT_160803.pm\"\n\n"
  const Supply: string := "\nVdd vdd 0 0.7\n"
  const Analysis: string := "\n.option post\n.tran 1p 2u\n"
  const Footer: string := ".end\n"

  predicate SourcesFormed(sources: Dict<VoltageSource>) {
    forall j :: 0 <= j < |sources| ==> WellFormedSource(sources[j].1)
  }

  predicate GatesFormed(gates: Dict<Gate>) {
    forall i :: 0 <= i < |gates| ==> WellFormed(gates[i].1)
  }

  /** The source fragments in insertion order. */
  function SourcesText(sources: Dict<VoltageSource>): string
    requires SourcesFormed(sources)
  {
    if sources == [] then ""
    else SourcesText(sources[..|sources| - 1]) + SourceNetlist(sources[|sources| - 1].1)
  }

  /** The gate fragments in insertion order. */
  function GatesText(gates: Dict<Gate>): string
    requires GatesFormed(gates)
  {
    if gates == [] then ""
    else GatesText(gates[..|gates| - 1]) + Render(gates[|gates| - 1].1)
  }

  lemma GatesTextStep(gates: Dict<Gate>, i: nat)
    requires GatesFormed(gates) && i < |gates|
    ensures GatesText(gates[..i + 1]) == GatesText(gates[..i]) + Render(gates[i].1)
  {
    assert gates[..i + 1][..i] == gates[..i];
  }

  lemma SourcesTextStep(sources: Dict<VoltageSource>, i: nat)
    requires SourcesFormed(sources) && i < |sources|
    ensures SourcesText(sources[..i + 1]) == SourcesText(sources[..i]) + SourceNetlist(sources[i].1)
  {
    assert sources[..i + 1][..i] == sources[..i];
  }

  /** The delay measurement from the first source's node to the node that
      feeds the end of sequence: the target edge falls when the chain
      inverts and rises otherwise. */
  function MeasureLine(circuit: string, trigger: string, target: string, inverting: bool): string {
    MeasureHead(circuit, trigger) + " VAL = 0.35 TD = 0n RISE = 1 TARG V(" + target + ") VAL = 0.35  "
    + MeasureEdge(inverting)
  }

  function MeasureHead(circuit: string, trigger: string): string {
    ".MEASURE TRAN tdlay" + circuit + " TRIG V(" + trigger + ")"
  }

  /** The output edge whose crossing ends the delay. */
  function MeasureEdge(inverting: bool): string {
    if inverting then "FALL = 1\n" else "RISE = 1\n"
  }

  /** The measure line names its circuit and trigger node, and ends in
      `FALL = 1` exactly when the circuit is inverting. */
  lemma MeasureEnding(circuit: string, trigger: string, target: string, inverting: bool)
    ensures StartsWith(MeasureLine(circuit, trigger, target, inverting),
                       ".MEASURE TRAN tdlay" + circuit + " TRIG V(" + trigger + ")")
    ensures EndsWith(MeasureLine(circuit, trigger, target, inverting), "FALL = 1\n") <==> inverting
    ensures EndsWith(MeasureLine(circuit, trigger, target, inverting), "RISE = 1\n") <==> !inverting
  {
    var line := MeasureLine(circuit, trigger, target, inverting);
    var head := MeasureHead(circuit, trigger);
    var rest := " VAL = 0.35 TD = 0n RISE = 1 TARG V(" + target + ") VAL = 0.35  ";
    var edge := MeasureEdge(inverting);
    assert line == head + rest + edge;
    assert line[..|head|] == head;
    assert |edge| == 9;
    assert line[|line| - 9..] == edge;
    assert "FALL = 1\n"[0] != "RISE = 1\n"[0];
  }

  class Circuit {
    const name: string
    const inverting: bool
    var gates: Dict<Gate>
    var voltageSources: Dict<VoltageSource>
    var eos: Option<EndOfSequence>
    var netlist: string

    /** The structure construction establishes (see WellBuilt). */
    predicate Structured()
      reads this`gates, this`voltageSources, this`eos
    {
      eos.Some? && WellBuilt(name, Built(voltageSources, gates, eos.value))
    }

    /** A constructed circuit: structured, with its netlist generated. */
    predicate Valid()
      reads this
    {
      Structured() && netlist == NetlistText()
    }

    /** Sources, then gates, then the end of sequence. */
    function ComponentText(): string
      reads this`gates, this`voltageSources, this`eos
      requires Structured()
    {
      SourcesText(voltageSources) + GatesText(gates) + EosNetlist(eos.value)
    }

    function MeasureText(): string
      reads this`gates, this`voltageSources, this`eos
      requires Structured()
    {
      MeasureLine(name, voltageSources[0].1.outputNode, GateOutput(eos.value.inputGate), inverting)
    }

    function NetlistText(): string
      reads this`gates, this`voltageSources, this`eos
      requires Structured()
    {
      Header + ComponentText() + Supply + Analysis + MeasureText() + Footer
    }

    /** The fields as the constructor first sets them. */
    constructor Empty(name: string, inverting: bool)
      ensures this.name == name && this.inverting == inverting
      ensures gates == [] && voltageSources == [] && eos == None && netlist == ""
    {
      this.name := name;
      this.inverting := inverting;
      gates := [];
      voltageSources := [];
      eos := None;
      netlist := "";
    }

    /** Circuit.__init__: the structure is built as Construct describes,
        then the netlist is generated. */
    static method New(name: string, gateDict: Dict<Config>, voltageDict: Dict<Config>, eosDict: Config, inverting: bool)
      returns (r: Result<Circuit>)
      requires DistinctKeys(gateDict) && DistinctKeys(voltageDict)
      ensures r.Err? ==> BuildCircuit(name, gateDict, voltageDict, eosDict) == Err(r.error)
      ensures r.Ok? ==> fresh(r.value) && r.value.Valid() && r.value.name == name && r.value.inverting == inverting
      ensures r.Ok? ==> BuildCircuit(name, gateDict, voltageDict, eosDict)
                        == Ok(Built(r.value.voltageSources, r.value.gates, r.value.eos.value))
    {
      r := Construct(name, gateDict, voltageDict, eosDict, inverting);
      if r.Ok? {
        var _ := r.value.GenerateNetlist();
      }
    }

    /** The structural part of Circuit.__init__: namespace the dictionaries,
        then build sources, gates and end of sequence, failing as the first
        failing step does. */
    static method Construct(name: string, gateDict: Dict<Config>, voltageDict: Dict<Config>, eosDict: Config, inverting: bool)
      returns (r: Result<Circuit>)
      requires DistinctKeys(gateDict) && DistinctKeys(voltageDict)
      ensures r.Err? ==> BuildCircuit(name, gateDict, voltageDict, eosDict) == Err(r.error)
      ensures r.Ok? ==> fresh(r.value) && r.value.Structured() && r.value.name == name && r.value.inverting == inverting
      ensures r.Ok? ==> BuildCircuit(name, gateDict, voltageDict, eosDict)
                        == Ok(Built(r.value.voltageSources, r.value.gates, r.value.eos.value))
    {
      var c := new Circuit.Empty(name, inverting);
      var voltages := Suffixed(voltageDict, name);
      var namespaced := NamespaceGateDict(gateDict, name);
      if namespaced.Err? {
        return Err(namespaced.error);
      }
      var gates0 := namespaced.value;
      if "input_gate" !in eosDict {
        return Err(KeyError("input_gate"));
      }
      if !eosDict["input_gate"].Str? {
        return Err(NotAString("input_gate"));
      }
      var eos0 := eosDict["input_gate" := Str(eosDict["input_gate"].s + name)];
      assert BuildCircuit(name, gateDict, voltageDict, eosDict) == BuildParts(name, gates0, eos0, voltages);
      SuffixedDistinct(voltageDict, name);
      NamespaceGatesDistinct(gateDict, name);
      var err := c.Populate(gates0, eos0, voltages);
      if err.Some? {
        return Err(err.value);
      }
      return Ok(c);
    }

    /** The three generation steps of Circuit.__init__ on namespaced
        dictionaries: sources, then gates, then the end of sequence. */
    method Populate(gates0: Dict<Config>, eos0: Config, voltages: Dict<Config>) returns (err: Option<Error>)
      requires voltageSources == [] && gates == []
      requires Namespaced(gates0) && DistinctKeys(gates0) && DistinctKeys(voltages)
      requires "input_gate" in eos0 && eos0["input_gate"].Str?
      modifies this`voltageSources, this`gates, this`eos
      ensures err.Some? ==> BuildParts(name, gates0, eos0, voltages) == Err(err.value)
      ensures err.None? ==> Structured() && BuildParts(name, gates0, eos0, voltages) == Ok(Built(voltageSources, gates, eos.value))
    {
      err := GenerateVoltageSources(voltages);
      if err.Some? {
        return;
      }
      err := GenerateGates(gates0);
      if err.Some? {
        return;
      }
      err := GenerateEos(eos0);
      if err.Some? {
        return;
      }
      StepsWellBuilt(name, gates0, eos0, voltages, voltageSources, gates);
    }

    /** __generate_voltage_sources: each entry gets its key as name and
        becomes a source, in insertion order. */
    method GenerateVoltageSources(voltageDict: Dict<Config>) returns (err: Option<Error>)
      requires voltageSources == [] && DistinctKeys(voltageDict)
      modifies this`voltageSources
      ensures err.Some? ==> BuildSources(voltageDict) == Err(err.value)
      ensures err.None? ==> BuildSources(voltageDict) == Ok(voltageSources)
    {
      var i := 0;
      while i < |voltageDict|
        invariant 0 <= i <= |voltageDict|
        invariant BuildSources(voltageDict[..i]) == Ok(voltageSources)
      {
        assert voltageDict[..i + 1][..i] == voltageDict[..i];
        var key, params := voltageDict[i].0, voltageDict[i].1;
        var source := NewVoltageSource(params["name" := Str(key)]);
        if source.Err? {
          BuildSourcesPrefixErr(voltageDict, i + 1);
          return Some(source.error);
        }
        voltageSources := voltageSources + [(key, source.value)];
        i := i + 1;
      }
      assert voltageDict[..i] == voltageDict;
      return None;
    }

    /** __generate_gates: each entry's input names are resolved against the
        gates built so far and the sources, then the gate is built. */
    method GenerateGates(gateDict: Dict<Config>) returns (err: Option<Error>)
      requires gates == [] && Namespaced(gateDict) && DistinctKeys(gateDict)
      modifies this`gates
      ensures err.Some? ==> BuildGates(gateDict, voltageSources) == Err(err.value)
      ensures err.None? ==> BuildGates(gateDict, voltageSources) == Ok(gates)
    {
      var i := 0;
      while i < |gateDict|
        invariant 0 <= i <= |gateDict|
        invariant BuildGates(gateDict[..i], voltageSources) == Ok(gates)
      {
        BuildGatesStep(gateDict, voltageSources, i);
        var key, params := gateDict[i].0, gateDict[i].1;
        var inputs := ResolveNames(params["input_components"].items, gates, voltageSources);
        if "type" !in params {
          BuildGatesPrefixErr(gateDict, voltageSources, i + 1);
          return Some(KeyError("type"));
        }
        if "k" !in params {
          BuildGatesPrefixErr(gateDict, voltageSources, i + 1);
          return Some(KeyError("k"));
        }
        var config := map["name" := Str(key), "type" := params["type"], "k" := params["k"],
                          "input_components" := ComponentList(inputs)];
        var gate := NewGate(config);
        if gate.Err? {
          BuildGatesPrefixErr(gateDict, voltageSources, i + 1);
          return Some(gate.error);
        }
        gates := gates + [(key, gate.value)];
        i := i + 1;
      }
      assert gateDict[..i] == gateDict;
      return None;
    }

    /** __generate_eos: the dictionary is named after the circuit and its
        input name replaced by the built gate. */
    method GenerateEos(eosDict: Config) returns (err: Option<Error>)
      requires "input_gate" in eosDict && eosDict["input_gate"].Str?
      modifies this`eos
      ensures err.Some? ==> BuildEos(name, eosDict, gates) == Err(err.value)
      ensures err.None? ==> eos.Some? && BuildEos(name, eosDict, gates) == Ok(eos.value)
    {
      var named := eosDict["name" := Str(name)];
      var gate := Lookup(gates, eosDict["input_gate"].s);
      if gate.None? {
        return Some(KeyError(eosDict["input_gate"].s));
      }
      var e := NewEos(named["input_gate" := Comp(G(gate.value))]);
      if e.Err? {
        return Some(e.error);
      }
      eos := Some(e.value);
      return None;
    }

    /** return_netlist: the component fragments, and the measure line. */
    method ReturnNetlist() returns (components: string, measure: string)
      requires Structured()
      ensures components == ComponentText() && measure == MeasureText()
    {
      var sources, end := voltageSources, eos.value;
      var sourceText := SourceFragments(sources);
      var gateText := GateFragments(gates);
      components := sourceText + gateText + EosNetlist(end);
      var trigger := sources[0].1.outputNode;
      var target := GateOutput(end.inputGate);
      var head := ".MEASURE TRAN tdlay" + name + " TRIG V(" + trigger + ")";
      var body := head + " VAL = 0.35 TD = 0n RISE = 1 TARG V(" + target + ") VAL = 0.35  ";
      if inverting {
        measure := body + "FALL = 1\n";
      } else {
        measure := body + "RISE = 1\n";
      }
    }

    /** __generate_netlist: header, components, supply, analysis, measure
        line and end, accumulated in that order. */
    method GenerateNetlist() returns (text: string)
      requires Structured()
      modifies this`netlist
      ensures gates == old(gates) && voltageSources == old(voltageSources) && eos == old(eos)
      ensures Structured() && netlist == NetlistText()
      ensures Valid() && text == netlist
    {
      netlist := Header;
      var components, _ := ReturnNetlist();
      netlist := netlist + components;
      netlist := netlist + Supply;
      netlist := netlist + Analysis;
      var _, measure := ReturnNetlist();
      netlist := netlist + measure;
      netlist := netlist + Footer;
      text := netlist;
    }

    /** __repr__: the netlist regenerated, which is the text of the unchanged
        structure. */
    method Repr() returns (text: string)
      requires Valid()
      modifies this`netlist
      ensures Valid() && text == netlist
    {
      text := GenerateNetlist();
    }

    /** make_adjacency_list: the distinct edges, sorted by source number. */
    method MakeAdjacencyList() returns (r: Result<seq<Edge>>)
      ensures r.Err? ==> EdgeList(name, gates) == Err(r.error)
      ensures r.Ok? ==> EdgeList(name, gates).Ok?
      ensures r.Ok? ==> SortedByFirst(r.value) && NoDuplicates(r.value)
      ensures r.Ok? ==> forall e :: e in r.value <==> e in EdgeList(name, gates).value
    {
      var found := CollectEdges(name, gates);
      if found.Err? {
        return Err(found.error);
      }
      var sorted := SortByFirst(found.value);
      PermutationNoDuplicates(found.value, sorted);
      PermutationMembers(found.value, sorted);
      SameEdgeSet(found.value, EdgeList(name, gates).value);
      return Ok(sorted);
    }

    /** make_adjacency_matrix: an N x N matrix of zeros where each edge,
        unless its mirror is already set, writes 1 forwards and -1 back. */
    method MakeAdjacencyMatrix() returns (m: array2<int>)
      requires Structured() && Numbered(name, gates, voltageSources)
      ensures fresh(m) && m.Length0 == |gates| && m.Length1 == |gates|
      ensures EdgeList(name, gates).Ok?
      ensures forall s, d :: 0 <= s < |gates| && 0 <= d < |gates| ==>
        m[s, d] == MatrixEntry(EdgeSet(EdgeList(name, gates).value), s, d)
    {
      m := FillAdjacency(name, gates, voltageSources);
    }

    /** make_feature_matrix: row number(g) of an N x 5 matrix holds the
        features of gate g. */
    method MakeFeatureMatrix() returns (f: array2<int>)
      requires Structured() && Numbered(name, gates, voltageSources)
      ensures fresh(f) && f.Length0 == |gates| && f.Length1 == 5
      ensures forall i, c :: 0 <= i < |gates| && 0 <= c < 5 ==>
        f[Num(name, gates, i), c] == FeatureRow(name, gates, eos.value.k, i)[c]
    {
      f := FillFeatures(name, gates, voltageSources, eos.value.k);
    }
  }

  /** The first loop of Circuit.__init__: every gate key and every input
      name gets the circuit name appended, in insertion order. */
  method NamespaceGateDict(gateDict: Dict<Config>, name: string) returns (r: Result<Dict<Config>>)
    ensures r == NamespaceGates(gateDict, name)
  {
    var gates0: Dict<Config> := [];
    var i := 0;
    while i < |gateDict|
      invariant 0 <= i <= |gateDict|
      invariant NamespaceGates(gateDict[..i], name) == Ok(gates0)
    {
      assert gateDict[..i + 1][..i] == gateDict[..i];
      var key, value := gateDict[i].0, gateDict[i].1;
      if "input_components" !in value {
        NamespacePrefixErr(gateDict, name, i + 1);
        return Err(KeyError("input_components"));
      }
      var names := SuffixedNames(value["input_components"], name);
      if names.Err? {
        NamespacePrefixErr(gateDict, name, i + 1);
        return Err(names.error);
      }
      gates0 := gates0 + [(key + name, value["input_components" := names.value])];
      i := i + 1;
    }
    assert gateDict[..i] == gateDict;
    return Ok(gates0);
  }

  /** The inner loop of __generate_gates: each input name is looked up
      among the gates built so far, then among the sources; a name found in
      neither is skipped. */
  method ResolveNames(names: seq<Value>, built: Dict<Gate>, sources: Dict<VoltageSource>) returns (inputs: seq<Component>)
    requires forall i :: 0 <= i < |names| ==> names[i].Str?
    ensures inputs == Resolve(names, built, sources)
  {
    inputs := [];
    var k := 0;
    while k < |names|
      invariant 0 <= k <= |names|
      invariant inputs == Resolve(names[..k], built, sources)
    {
      assert names[..k + 1][..k] == names[..k];
      var inputName := names[k].s;
      var g := Lookup(built, inputName);
      if g.Some? {
        inputs := inputs + [G(g.value)];
      } else {
        var s := Lookup(sources, inputName);
        if s.Some? {
          inputs := inputs + [S(s.value)];
        }
      }
      k := k + 1;
    }
    assert names[..k] == names;
  }

  /** The loops of make_adjacency_list: the distinct edges, collected in
      visiting order, as the set the source adds them to. */
  method CollectEdges(circuit: string, gates: Dict<Gate>) returns (r: Result<seq<Edge>>)
    ensures r.Err? ==> EdgeList(circuit, gates) == Err(r.error)
    ensures r.Ok? ==> EdgeList(circuit, gates).Ok? && NoDuplicates(r.value)
    ensures r.Ok? ==> EdgeSet(r.value) == EdgeSet(EdgeList(circuit, gates).value)
  {
    var found: seq<Edge> := [];
    var i := 0;
    while i < |gates|
      invariant 0 <= i <= |gates|
      invariant EdgeList(circuit, gates[..i]).Ok?
      invariant NoDuplicates(found)
      invariant EdgeSet(found) == EdgeSet(EdgeList(circuit, gates[..i]).value)
    {
      assert gates[..i + 1][..i] == gates[..i];
      var g := gates[i].1;
      var d := GateNumber(circuit, g.name);
      if d.Err? {
        EdgeListPrefixErr(circuit, gates, i + 1);
        return Err(d.error);
      }
      var more := CollectInputEdges(found, circuit, d.value, g.inputs);
      if more.Err? {
        EdgeListPrefixErr(circuit, gates, i + 1);
        return Err(more.error);
      }
      EdgeSetConcat(EdgeList(circuit, gates[..i]).value, InputEdges(circuit, d.value, g.inputs).value);
      found := more.value;
      i := i + 1;
    }
    assert gates[..i] == gates;
    return Ok(found);
  }

  /** The inner loop of make_adjacency_list for a gate numbered d: the edge
      from each input whose number is not -1 is added unless already there. */
  method CollectInputEdges(found: seq<Edge>, circuit: string, d: int, inputs: seq<Component>) returns (r: Result<seq<Edge>>)
    requires NoDuplicates(found)
    ensures r.Err? ==> InputEdges(circuit, d, inputs) == Err(r.error)
    ensures r.Ok? ==> InputEdges(circuit, d, inputs).Ok? && NoDuplicates(r.value)
    ensures r.Ok? ==> EdgeSet(r.value) == EdgeSet(found) + EdgeSet(InputEdges(circuit, d, inputs).value)
  {
    var acc := found;
    var k := 0;
    while k < |inputs|
      invariant 0 <= k <= |inputs|
      invariant InputEdges(circuit, d, inputs[..k]).Ok?
      invariant NoDuplicates(acc)
      invariant EdgeSet(acc) == EdgeSet(found) + EdgeSet(InputEdges(circuit, d, inputs[..k]).value)
    {
      assert inputs[..k + 1][..k] == inputs[..k];
      var s := GateNumber(circuit, ComponentName(inputs[k]));
      if s.Err? {
        InputEdgesPrefixErr(circuit, d, inputs, k + 1);
        return Err(s.error);
      }
      if s.value != -1 && d != -1 {
        EdgeSetAppend(InputEdges(circuit, d, inputs[..k]).value, (s.value, d));
        if (s.value, d) !in acc {
          EdgeSetAppend(acc, (s.value, d));
          acc := acc + [(s.value, d)];
        } else {
          assert (s.value, d) in EdgeSet(acc);
        }
      }
      k := k + 1;
    }
    assert inputs[..k] == inputs;
    return Ok(acc);
  }

  /** The first loop of return_netlist: the source fragments, appended in
      insertion order. */
  method SourceFragments(sources: Dict<VoltageSource>) returns (text: string)
    requires SourcesFormed(sources)
    ensures text == SourcesText(sources)
  {
    text := "";
    var i := 0;
    while i < |sources|
      invariant 0 <= i <= |sources|
      invariant text == SourcesText(sources[..i])
    {
      SourcesTextStep(sources, i);
      text := text + SourceNetlist(sources[i].1);
      i := i + 1;
    }
    assert sources[..i] == sources;
  }

  /** The second loop of return_netlist: the gate fragments, appended in
      insertion order. */
  method GateFragments(gates: Dict<Gate>) returns (text: string)
    requires GatesFormed(gates)
    ensures text == GatesText(gates)
  {
    text := "";
    var i := 0;
    while i < |gates|
      invariant 0 <= i <= |gates|
      invariant text == GatesText(gates[..i])
    {
      GatesTextStep(gates, i);
      text := text + Render(gates[i].1);
      i := i + 1;
    }
    assert gates[..i] == gates;
  }

  /** `f[r] = row`: row r of a five-column matrix becomes row, and no other
      row changes. */
  method WriteRow(f: array2<int>, r: nat, row: seq<int>)
    requires f.Length1 == 5 && |row| == 5 && r < f.Length0
    modifies f
    ensures forall i, c :: 0 <= i < f.Length0 && 0 <= c < 5 ==> f[i, c] == if i == r then row[c] else old(f[i, c])
  {
    f[r, 0] := row[0];
    f[r, 1] := row[1];
    f[r, 2] := row[2];
    f[r, 3] := row[3];
    f[r, 4] := row[4];
  }

  /** The loop of make_feature_matrix over a numbered gate dictionary: the
      row of each gate is written at the gate's number. */
  method FillFeatures(circuit: string, gates: Dict<Gate>, sources: Dict<VoltageSource>, eosK: int) returns (f: array2<int>)
    requires |gates| >= 1 && DistinctKeys(gates) && Numbered(circuit, gates, sources)
    requires forall i :: 0 <= i < |gates| ==> gates[i].1.name == gates[i].0
    ensures fresh(f) && f.Length0 == |gates| && f.Length1 == 5
    ensures forall i, c :: 0 <= i < |gates| && 0 <= c < 5 ==>
      f[Num(circuit, gates, i), c] == FeatureRow(circuit, gates, eosK, i)[c]
  {
    var n := |gates|;
    f := new int[n, 5]((_, _) => 0);
    var i := 0;
    while i < n
      invariant 0 <= i <= n
      invariant forall j, c :: 0 <= j < i && 0 <= c < 5 ==>
        f[Num(circuit, gates, j), c] == FeatureRow(circuit, gates, eosK, j)[c]
    {
      var g := gates[i].1;
      var number := GateNumber(circuit, g.name).value;
      assert number == Num(circuit, gates, i);
      var typeOfGate := TypeIndex(g.gtype);
      var inputCap := Lookup(gates, gates[0].0).value.k;
      var outputCap := eosK;
      LookupEntry(gates, 0);
      LookupEntry(gates, i);
      var sizing := Lookup(gates, g.name).value.k;
      forall j | 0 <= j < i
        ensures Num(circuit, gates, j) != number
      {
        NumInjective(circuit, gates, sources, i, j);
      }
      WriteRow(f, number, [number, typeOfGate as int, inputCap, outputCap, sizing]);
      i := i + 1;
    }
  }

  /** The loops of make_adjacency_matrix over a numbered circuit. */
  method FillAdjacency(circuit: string, gates: Dict<Gate>, sources: Dict<VoltageSource>) returns (m: array2<int>)
    requires GatesOk(gates, sources) && SourcesOk(sources) && Numbered(circuit, gates, sources)
    ensures fresh(m) && m.Length0 == |gates| && m.Length1 == |gates|
    ensures EdgeList(circuit, gates).Ok?
    ensures forall s, d :: 0 <= s < |gates| && 0 <= d < |gates| ==>
      m[s, d] == MatrixEntry(EdgeSet(EdgeList(circuit, gates).value), s, d)
  {
    var n := |gates|;
    m := new int[n, n]((_, _) => 0);
    ghost var edges: seq<Edge> := [];
    var i := 0;
    while i < n
      invariant 0 <= i <= n
      invariant EdgeList(circuit, gates[..i]) == Ok(edges)
      invariant Agrees(m, EdgeSet(edges))
    {
      var g := gates[i].1;
      var dn := GateNumber(circuit, g.name).value;
      GateEdgesOriented(circuit, gates, sources, i);
      MarkInputs(m, circuit, dn, g.inputs, edges);
      edges := edges + InputEdges(circuit, dn, g.inputs).value;
      i := i + 1;
    }
    assert gates[..i] == gates;
  }

  /** Every entry of the square matrix m is the one the edge set implies. */
  predicate Agrees(m: array2<int>, seen: set<Edge>)
    reads m
  {
    m.Length0 == m.Length1 && forall s, d :: 0 <= s < m.Length0 && 0 <= d < m.Length0 ==> m[s, d] == MatrixEntry(seen, s, d)
  }

  /** The body of make_adjacency_matrix's inner loop for an edge sn -> dn:
      the entries (sn, dn) and (dn, sn) become 1 and -1 unless the latter is
      already set. */
  method MarkEdge(m: array2<int>, sn: int, dn: int, ghost seen: set<Edge>)
    requires m.Length0 == m.Length1
    requires 0 <= sn < m.Length0 && 0 <= dn < m.Length0 && sn != dn && (dn, sn) !in seen
    requires Agrees(m, seen)
    modifies m
    ensures Agrees(m, seen + {(sn, dn)})
  {
    if m[dn, sn] == 0 {
      m[sn, dn] := 1;
      m[dn, sn] := -1;
    }
  }

  /** The inner loop of make_adjacency_matrix for a gate numbered dn: each
      input whose number sn is not -1 marks the edge sn -> dn, provided dn is
      not -1 either. */
  method MarkInputs(m: array2<int>, circuit: string, dn: int, inputs: seq<Component>, ghost edges: seq<Edge>)
    requires m.Length0 == m.Length1
    requires InputEdges(circuit, dn, inputs).Ok?
    requires Oriented(edges + InputEdges(circuit, dn, inputs).value, m.Length0)
    requires Agrees(m, EdgeSet(edges))
    modifies m
    ensures Agrees(m, EdgeSet(edges + InputEdges(circuit, dn, inputs).value))
  {
    var k := 0;
    assert inputs[..0] == [];
    assert edges + [] == edges;
    while k < |inputs|
      invariant 0 <= k <= |inputs|
      invariant InputEdges(circuit, dn, inputs[..k]).Ok?
      invariant Agrees(m, EdgeSet(edges + InputEdges(circuit, dn, inputs[..k]).value))
    {
      MarkInput(m, circuit, dn, inputs, k, edges);
      k := k + 1;
    }
    assert inputs[..k] == inputs;
  }

  /** One turn of that loop, for input k. */
  method MarkInput(m: array2<int>, circuit: string, dn: int, inputs: seq<Component>, k: nat, ghost edges: seq<Edge>)
    requires k < |inputs| && InputEdges(circuit, dn, inputs).Ok?
    requires Oriented(edges + InputEdges(circuit, dn, inputs).value, m.Length0)
    requires InputEdges(circuit, dn, inputs[..k]).Ok?
    requires Agrees(m, EdgeSet(edges + InputEdges(circuit, dn, inputs[..k]).value))
    modifies m
    ensures InputEdges(circuit, dn, inputs[..k + 1]).Ok?
    ensures Agrees(m, EdgeSet(edges + InputEdges(circuit, dn, inputs[..k + 1]).value))
  {
    ghost var seen := EdgeSet(edges + InputEdges(circuit, dn, inputs[..k]).value);
    EdgeSetStep(circuit, dn, inputs, k, edges, m.Length0, seen);
    var sn := GateNumber(circuit, ComponentName(inputs[k])).value;
    if sn != -1 && dn != -1 {
      MarkEdge(m, sn, dn, seen);
    }
  }
}
