/** The end of sequence: the capacitive load at the end of a gate chain, a
    dummy inverter followed by a capacitor to ground. */
module EndOfSequences {
  import opened Wrappers
  import opened Text
  import opened Components
  import opened Gates

  /** The type a configuration entry must have. */
  datatype Expected = IntType | GateType | NumberType | StrType

  predicate HasType(v: Value, t: Expected) {
    match t
    case IntType => IsInt(v)
    case GateType => v.Comp? && v.c.G?
    case NumberType => IsNumber(v)
    case StrType => v.Str?
  }

  /** The required keys and their types, in the order they are checked. */
  const EosTable: seq<(string, Expected)> :=
    [("k", IntType), ("input_gate", GateType), ("capacitance", NumberType), ("name", StrType)]

  /** The table-driven check: for each entry in turn, a missing key and then
      a mistyped value raise. */
  function CheckTable(table: seq<(string, Expected)>, config: Config): (r: Option<Error>)
    ensures r.None? <==> forall i :: 0 <= i < |table| ==> table[i].0 in config && HasType(config[table[i].0], table[i].1)
  {
    if table == [] then None
    else
      var (key, expected) := table[0];
      if key !in config then Some(NotProvided(key))
      else if !HasType(config[key], expected) then Some(WrongType(key))
      else CheckTable(table[1..], config)
  }

  /** The end-of-sequence object: its fields as configured and the internal
      1NOT gate `<name>EOS` fed by the input gate. */
  datatype EndOfSequence = EndOfSequence(k: int, name: string, inputGate: Gate, capacitance: Value, eos: Gate)

  predicate WellFormedEos(e: EndOfSequence) {
    WellFormed(e.eos) && IsNumber(e.capacitance)
  }

  function EosGateConfig(name: string, k: Value, inputGate: Value): Config {
    map["name" := Str(name + "EOS"), "type" := Str("1NOT"), "k" := k,
        "input_components" := List([inputGate])]
  }

  /** EndOfSequence.__init__: validate, store the fields, build the internal gate. */
  function NewEos(config: Config): (r: Result<EndOfSequence>)
    ensures r.Ok? ==> WellFormedEos(r.value)
  {
    match CheckTable(EosTable, config)
    case Some(e) => Err(e)
    case None =>
      assert EosTable[0].0 == "k" && EosTable[1].0 == "input_gate";
      assert EosTable[2].0 == "capacitance" && EosTable[3].0 == "name";
      var name := config["name"].s;
      match NewGate(EosGateConfig(name, config["k"], config["input_gate"]))
      case Err(e) => Err(e)
      case Ok(g) =>
        Ok(EndOfSequence(AsInt(config["k"]), name, config["input_gate"].c.gate, config["capacitance"], g))
  }

  /** The fragment: the internal gate's lines, then `C<name>eos out_<name>EOS 0 <c>f`. */
  function EosNetlist(e: EndOfSequence): string
    requires WellFormedEos(e)
  {
    Render(e.eos) + CapacitorLine(e.name, GateOutput(e.eos), e.capacitance)
  }

  /** `C<name>eos <node> 0 <capacitance>f`: the load on the node. */
  function CapacitorLine(name: string, node: string, capacitance: Value): string
    requires IsNumber(capacitance)
  {
    "C" + name + "eos " + node + " 0 " + ShowNumber(capacitance) + "f\n"
  }

  /** The first entry of the table that fails decides the error: a missing
      key reports "not provided", a present but mistyped one "must be". */
  lemma {:induction false} TableFirstFailure(table: seq<(string, Expected)>, config: Config, i: nat)
    requires i < |table|
    requires forall j :: 0 <= j < i ==> table[j].0 in config && HasType(config[table[j].0], table[j].1)
    requires table[i].0 !in config || !HasType(config[table[i].0], table[i].1)
    ensures CheckTable(table, config)
         == Some(if table[i].0 !in config then NotProvided(table[i].0) else WrongType(table[i].0))
  {
    if i > 0 {
      TableFirstFailure(table[1..], config, i - 1);
    }
  }

  /** The EOS checks k (int), input_gate (Gate), capacitance (float or int),
      name (str) in this order; the first failing key decides the error. */
  lemma EosFirstFailure(config: Config, i: nat)
    requires i < |EosTable|
    requires forall j :: 0 <= j < i ==> EosTable[j].0 in config && HasType(config[EosTable[j].0], EosTable[j].1)
    requires EosTable[i].0 !in config || !HasType(config[EosTable[i].0], EosTable[i].1)
    ensures NewEos(config)
         == Err(if EosTable[i].0 !in config then NotProvided(EosTable[i].0) else WrongType(EosTable[i].0))
  {
    TableFirstFailure(EosTable, config, i);
  }

  /** An independent statement of what construction accepts. */
  predicate GoodEosConfig(config: Config) {
    && "k" in config && IsInt(config["k"])
    && "input_gate" in config && config["input_gate"].Comp? && config["input_gate"].c.G?
    && "capacitance" in config && IsNumber(config["capacitance"])
    && "name" in config && config["name"].Str?
  }

  /** Construction succeeds exactly on GoodEosConfig. */
  lemma EosAccepts(config: Config)
    ensures NewEos(config).Ok? <==> GoodEosConfig(config)
  {
    assert EosTable[0] == ("k", IntType) && EosTable[1] == ("input_gate", GateType);
    assert EosTable[2] == ("capacitance", NumberType) && EosTable[3] == ("name", StrType);
    if GoodEosConfig(config) {
      EosFields(config);
    }
  }

  /** A well-typed configuration builds, and the result holds the configured
      values and a 1NOT `<name>EOS` of the same k whose only input is the
      input gate. */
  lemma EosFields(config: Config)
    requires GoodEosConfig(config)
    ensures NewEos(config).Ok?
    ensures var e := NewEos(config).value;
      && e.k == AsInt(config["k"]) && e.name == config["name"].s
      && e.inputGate == config["input_gate"].c.gate && e.capacitance == config["capacitance"]
      && e.eos == Gate(Not1, e.name + "EOS", e.k, [G(e.inputGate)])
  {
    assert CheckTable(EosTable, config).None? by {
      assert EosTable[0] == ("k", IntType) && EosTable[1] == ("input_gate", GateType);
      assert EosTable[2] == ("capacitance", NumberType) && EosTable[3] == ("name", StrType);
    }
    var name := config["name"].s;
    var gc := EosGateConfig(name, config["k"], config["input_gate"]);
    assert ValidateGateConfig(gc).None?;
    var g := NewGate(gc).value;
    assert ComponentList(g.inputs) == List([config["input_gate"]]);
    assert g.inputs == [config["input_gate"].c];
    assert TypeName(g.gtype) == "1NOT";
  }

  /** The capacitor line hangs off the internal gate's output node
      out_<name>EOS. */
  lemma EosNetlistShape(e: EndOfSequence)
    requires WellFormedEos(e) && e.eos.name == e.name + "EOS"
    ensures EosNetlist(e) == Render(e.eos) + CapacitorLine(e.name, "out_" + e.name + "EOS", e.capacitance)
  {
    assert GateOutput(e.eos) == "out_" + e.name + "EOS";
  }
}
