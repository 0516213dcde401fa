/** The entities shared by every part of the circuit layer: the five gate
    types, the dynamically typed configuration values, and the two kinds of
    component a gate can take as input (another gate or a voltage source). */
module Components {
  import opened Wrappers
  import opened Text

  /** The five gate types; the leading digit of each name is its fan-in. */
  datatype GateType = Nand2 | Not1 | Nor2 | And2 | Or2

  function TypeName(t: GateType): string {
    match t
    case Nand2 => "2NAND"
    case Not1 => "1NOT"
    case Nor2 => "2NOR"
    case And2 => "2AND"
    case Or2 => "2OR"
  }

  /** Membership of a type name in the set of valid types. */
  function ParseGateType(s: string): (r: Option<GateType>)
    ensures r.Some? ==> TypeName(r.value) == s
    ensures r.None? ==> forall t: GateType :: TypeName(t) != s
  {
    if s == "2NAND" then Some(Nand2)
    else if s == "1NOT" then Some(Not1)
    else if s == "2NOR" then Some(Nor2)
    else if s == "2AND" then Some(And2)
    else if s == "2OR" then Some(Or2)
    else None
  }

  /** The fan-in of a type: the integer value of the leading digit of its name. */
  function FanIn(t: GateType): (n: nat)
    ensures n == (if t == Not1 then 1 else 2)
  {
    var name := TypeName(t);
    DigitValue(name[0])
  }

  /** The fixed ordering of the types used by the feature matrix. */
  const GateChoices: seq<GateType> := [Nand2, Not1, Nor2, And2, Or2]

  /** Position of a type in GateChoices (list.index). */
  function TypeIndex(t: GateType): (i: nat)
    ensures i < |GateChoices| && GateChoices[i] == t
    ensures forall j :: 0 <= j < i ==> GateChoices[j] != t
  {
    match t
    case Nand2 => 0
    case Not1 => 1
    case Nor2 => 2
    case And2 => 3
    case Or2 => 4
  }

  /** The types whose output is the complement of a monotone function. */
  predicate IsInverting(t: GateType) {
    t == Not1 || t == Nand2 || t == Nor2
  }

  /** A value of a configuration dictionary. Python bools are ints as well;
      a float is carried as the text str() gives for it. */
  datatype Value =
    | Int(i: int)
    | Bool(b: bool)
    | Float(repr: string)
    | Str(s: string)
    | List(items: seq<Value>)
    | Comp(c: Component)
    | NoneValue

  /** What can feed a gate input: a gate or a voltage source. */
  datatype Component = G(gate: Gate) | S(source: VoltageSource)

  /** A logic gate: its type, name, sizing and ordered input components. */
  datatype Gate = Gate(gtype: GateType, name: string, k: int, inputs: seq<Component>)

  /** A stimulus pin. A non-ideal source owns an inverting driver gate, and
      its visible output node is then the driver's output node. */
  datatype VoltageSource = VoltageSource(name: string, driver: Option<Gate>, outputNode: string)

  type Config = map<string, Value>

  function GateOutput(g: Gate): string {
    "out_" + g.name
  }

  /** The node a component drives (the shared `output_node_name` attribute). */
  function OutputNode(c: Component): string {
    match c
    case G(g) => GateOutput(g)
    case S(s) => s.outputNode
  }

  function ComponentName(c: Component): string {
    match c
    case G(g) => g.name
    case S(s) => s.name
  }

  /** isinstance(v, int): true for ints and for bools. */
  predicate IsInt(v: Value) {
    v.Int? || v.Bool?
  }

  function AsInt(v: Value): int
    requires IsInt(v)
  {
    match v
    case Int(i) => i
    case Bool(b) => if b then 1 else 0
  }

  /** isinstance(v, (float, int)). */
  predicate IsNumber(v: Value) {
    v.Float? || IsInt(v)
  }

  /** Python truthiness. */
  predicate Truthy(v: Value) {
    match v
    case Int(i) => i != 0
    case Bool(b) => b
    case Float(r) => r != "0.0" && r != "-0.0"
    case Str(s) => s != ""
    case List(items) => items != []
    case Comp(_) => true
    case NoneValue => false
  }

  /** str() of a number. */
  function ShowNumber(v: Value): string
    requires IsNumber(v)
  {
    match v
    case Int(i) => IntStr(i)
    case Bool(b) => if b then "True" else "False"
    case Float(r) => r
  }

  /** A list of components as a configuration value. */
  function ComponentList(cs: seq<Component>): (v: Value)
    ensures v.List? && |v.items| == |cs|
    ensures forall i :: 0 <= i < |cs| ==> v.items[i] == Comp(cs[i])
  {
    List(seq(|cs|, i requires 0 <= i < |cs| => Comp(cs[i])))
  }
}
