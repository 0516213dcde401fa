/** The graph generator: it draws a chain of gates, wires it into two
    circuits (one with the drawn sizings, one with idealized ones) and
    exports the graph of the first as matrices. The random draws are
    parameters of the constructor. */
module Graphs {
  import opened Wrappers
  import opened Components
  import opened CircuitSpec
  import opened Numbering
  import opened Sorting
  import opened Circuits
  import opened Chains

  /** np.array(edges).T: the row of sources above the row of targets. */
  function Transpose(edges: seq<Edge>): (rows: seq<seq<int>>)
    ensures |rows| == 2 && |rows[0]| == |edges| && |rows[1]| == |edges|
    ensures forall i :: 0 <= i < |edges| ==> rows[0][i] == edges[i].0 && rows[1][i] == edges[i].1
  {
    [seq(|edges|, i requires 0 <= i < |edges| => edges[i].0), seq(|edges|, i requires 0 <= i < |edges| => edges[i].1)]
  }

  /** The transposed path: the sources 0 .. n - 2 above the targets 1 .. n - 1. */
  lemma TransposedPath(n: nat)
    requires n >= 1
    ensures var rows := Transpose(ChainPath(n));
      rows == [seq(n - 1, i => i), seq(n - 1, i => i + 1)]
  {
    var rows := Transpose(ChainPath(n));
    assert rows[0] == seq(n - 1, i => i);
    assert rows[1] == seq(n - 1, i => i + 1);
  }

  /** The loop of __make_circuit that fills both gate dictionaries: gate
      i + 1 of each has the drawn type, its own sizing, and as inputs the
      drivers (first gate) or fan-in copies of gate i. */
  method MakeGateDicts(types: seq<GateType>, sizes: seq<int>, weights: seq<int>)
    returns (gd: Dict<Config>, igd: Dict<Config>)
    requires |types| >= 1 && |sizes| == |types| && |weights| == |types|
    ensures gd == ChainGateDict(types, sizes) && igd == ChainGateDict(types, weights)
  {
    var drivers := Drivers(types[0]);
    gd, igd := [], [];
    var i := 0;
    while i < |types|
      invariant 0 <= i <= |types|
      invariant gd == ChainGateDict(types, sizes)[..i]
      invariant igd == ChainGateDict(types, weights)[..i]
    {
      var inputs := if i > 0 then seq(FanIn(types[i]), _ => GateKey(i)) else drivers;
      assert inputs == ChainInputNames(types, i);
      PrefixStep(ChainGateDict(types, sizes), i);
      PrefixStep(ChainGateDict(types, weights), i);
      gd := gd + [(GateKey(i + 1), GateEntry(types[i], sizes[i], inputs))];
      igd := igd + [(GateKey(i + 1), GateEntry(types[i], weights[i], inputs))];
      i := i + 1;
    }
  }

  /** The loop that fills both driver dictionaries with the same non-ideal
      sources v1 .. v<n>. */
  method MakeDriverDicts(driverSizes: seq<int>) returns (vd: Dict<Config>, ivd: Dict<Config>)
    ensures vd == DriverDict(driverSizes) && ivd == DriverDict(driverSizes)
  {
    vd, ivd := [], [];
    var i := 0;
    while i < |driverSizes|
      invariant 0 <= i <= |driverSizes|
      invariant vd == DriverDict(driverSizes)[..i] && ivd == vd
    {
      vd := vd + [(DriverKey(i + 1), DriverEntry(driverSizes[i]))];
      ivd := ivd + [(DriverKey(i + 1), DriverEntry(driverSizes[i]))];
      i := i + 1;
    }
  }

  /** Circuit(name, gate_dict, driver_dict, eos_dict, inverting) on the
      dictionaries of a chain: construction cannot fail, and the circuit
      holds the chain. */
  method NewChainCircuit(name: string, gateDict: Dict<Config>, driverDict: Dict<Config>, eosDict: Config, inverting: bool,
                         types: seq<GateType>, sizes: seq<int>, driverSizes: seq<int>, eosK: int)
    returns (c: Circuit)
    requires ChainShape(types, sizes, driverSizes)
    requires gateDict == ChainGateDict(types, sizes) && driverDict == DriverDict(driverSizes)
    requires eosDict == EosDict(eosK, |types|)
    ensures fresh(c) && HoldsChain(c, name, inverting, types, sizes, driverSizes, eosK)
  {
    ChainKeysDistinct(types, sizes, driverSizes, name);
    ChainBuilds(name, types, sizes, driverSizes, eosK);
    var r := Circuit.New(name, gateDict, driverDict, eosDict, inverting);
    assert r.Ok?;
    c := r.value;
  }

  /** The two Circuit(...) calls of __make_circuit: the drawn circuit, then
      the idealized one. */
  method NewChainCircuits(name: string, gateDict: Dict<Config>, driverDict: Dict<Config>, eosDict: Config,
                          idealGateDict: Dict<Config>, idealDriverDict: Dict<Config>, idealEosDict: Config,
                          inverting: bool, types: seq<GateType>, sizes: seq<int>, weights: seq<int>,
                          driverSizes: seq<int>, eosK: int)
    returns (drawn: Circuit, ideal: Circuit)
    requires ChainShape(types, sizes, driverSizes) && |weights| == |types|
    requires gateDict == ChainGateDict(types, sizes) && idealGateDict == ChainGateDict(types, weights)
    requires driverDict == DriverDict(driverSizes) && idealDriverDict == DriverDict(driverSizes)
    requires eosDict == EosDict(eosK, |types|) && idealEosDict == EosDict(eosK, |types|)
    ensures fresh(drawn) && fresh(ideal) && drawn != ideal
    ensures HoldsChain(drawn, name, inverting, types, sizes, driverSizes, eosK)
    ensures HoldsChain(ideal, name, inverting, types, weights, driverSizes, eosK)
  {
    drawn := NewChainCircuit(name, gateDict, driverDict, eosDict, inverting, types, sizes, driverSizes, eosK);
    ideal := NewChainCircuit(name, idealGateDict, idealDriverDict, idealEosDict, inverting, types, weights, driverSizes, eosK);
  }

  /** Every draw of randint(1, maxSizing, n) lies in [1, maxSizing). */
  predicate Sizings(sizes: seq<int>, maxSizing: int) {
    forall i :: 0 <= i < |sizes| ==> 1 <= sizes[i] < maxSizing
  }

  class Graph {
    const name: string
    const maxNumOfGates: nat
    const maxSizing: int
    const gateList: seq<GateType>
    const gateSizes: seq<int>
    const drivers: seq<string>
    const driverSizes: seq<int>
    const idealWeights: seq<int>
    const numInvertingGates: nat
    const inverting: bool
    const circuit: Circuit
    const idealizedCircuit: Circuit
    /** The drawn sizing of the end of sequence, shared by both circuits. */
    ghost const eosK: int

    /** What __make_circuit leaves behind: the draws in range, and two
        circuits built from the chain, differing only in gate sizings. */
    ghost predicate Valid()
      reads this, circuit, idealizedCircuit
    {
      && ChainShape(gateList, gateSizes, driverSizes) && |idealWeights| == |gateList|
      && maxNumOfGates == |gateList| >= 10
      && Sizings(gateSizes, maxSizing) && Sizings(driverSizes, maxSizing)
      && Sizings(idealWeights, maxSizing) && 1 <= eosK < maxSizing
      && drivers == Drivers(gateList[0])
      && numInvertingGates == InvertingCount(gateList)
      && inverting == ChainInverting(gateList)
      && circuit != idealizedCircuit
      && HoldsChain(circuit, name, inverting, gateList, gateSizes, driverSizes, eosK)
      && HoldsChain(idealizedCircuit, name, inverting, gateList, idealWeights, driverSizes, eosK)
    }

    /** Graph.__init__ with __make_circuit: the number of gates is drawn in
        [10, maxGates), the types among the five, every sizing in
        [1, maxSizing); the draws are the parameters after maxSizing. */
    constructor (name: string, maxGates: int, maxSizing: int,
                 types: seq<GateType>, sizes: seq<int>, driverSizes: seq<int>, eosK: int, weights: seq<int>)
      requires 10 <= |types| < maxGates
      requires |sizes| == |types| && |weights| == |types| && |driverSizes| == FanIn(types[0])
      requires Sizings(sizes, maxSizing) && Sizings(driverSizes, maxSizing) && Sizings(weights, maxSizing)
      requires 1 <= eosK < maxSizing
      ensures Valid() && fresh(circuit) && fresh(idealizedCircuit)
      ensures this.name == name && this.maxSizing == maxSizing && maxNumOfGates == |types|
      ensures gateList == types && gateSizes == sizes && this.driverSizes == driverSizes
      ensures idealWeights == weights && this.eosK == eosK
    {
      this.name := name;
      this.maxNumOfGates := |types|;
      this.maxSizing := maxSizing;
      gateList := types;
      gateSizes := sizes;
      drivers := Drivers(types[0]);
      this.driverSizes := driverSizes;
      this.eosK := eosK;
      idealWeights := weights;
      var eosDict := EosDict(eosK, |types|);
      var idealEosDict := EosDict(eosK, |types|);
      var gateDict, idealGateDict := MakeGateDicts(types, sizes, weights);
      var driverDict, idealDriverDict := MakeDriverDicts(driverSizes);
      numInvertingGates := InvertingCount(types);
      inverting := InvertingCount(types) % 2 == 1;
      var drawn, ideal := NewChainCircuits(name, gateDict, driverDict, eosDict, idealGateDict, idealDriverDict,
                                           idealEosDict, InvertingCount(types) % 2 == 1,
                                           types, sizes, weights, driverSizes, eosK);
      circuit := drawn;
      idealizedCircuit := ideal;
    }

    /** make_adjacency_list_and_feature_matrix: the transposed adjacency
        list, which for a chain is the path 0 -> 1 -> ... -> n - 1, and the
        feature matrix of the drawn circuit. */
    method MakeAdjacencyListAndFeatureMatrix() returns (adj: seq<seq<int>>, f: array2<int>)
      requires Valid()
      ensures adj == Transpose(ChainPath(|gateList|))
      ensures fresh(f) && f.Length0 == |gateList| && f.Length1 == 5
      ensures forall i, c :: 0 <= i < |gateList| && 0 <= c < 5 ==>
        f[i, c] == [i, TypeIndex(gateList[i]) as int, gateSizes[0], eosK, gateSizes[i]][c]
    {
      var list := circuit.MakeAdjacencyList();
      ChainEdges(name, gateList, gateSizes, driverSizes);
      assert list.Ok?;
      AdjacencyListIsPath(|gateList|, list.value);
      adj := Transpose(list.value);
      f := FeatureMatrix();
    }

    /** make_graph_matrices: the adjacency matrix, 1 from each gate to the
        next and -1 back, and the feature matrix. */
    method MakeGraphMatrices() returns (m: array2<int>, f: array2<int>)
      requires Valid()
      ensures fresh(m) && m.Length0 == |gateList| && m.Length1 == |gateList|
      ensures forall s, d :: 0 <= s < |gateList| && 0 <= d < |gateList| ==>
        m[s, d] == if d == s + 1 then 1 else if s == d + 1 then -1 else 0
      ensures fresh(f) && f.Length0 == |gateList| && f.Length1 == 5
      ensures forall i, c :: 0 <= i < |gateList| && 0 <= c < 5 ==>
        f[i, c] == [i, TypeIndex(gateList[i]) as int, gateSizes[0], eosK, gateSizes[i]][c]
    {
      ChainNumbered(name, gateList, gateSizes, driverSizes);
      m := circuit.MakeAdjacencyMatrix();
      forall s, d | 0 <= s < |gateList| && 0 <= d < |gateList|
        ensures m[s, d] == if d == s + 1 then 1 else if s == d + 1 then -1 else 0
      {
        ChainMatrixEntry(name, gateList, gateSizes, driverSizes, s, d);
      }
      f := FeatureMatrix();
    }

    /** The feature matrix of the drawn circuit, row i for gate i + 1. */
    method FeatureMatrix() returns (f: array2<int>)
      requires Valid()
      ensures fresh(f) && f.Length0 == |gateList| && f.Length1 == 5
      ensures forall i, c :: 0 <= i < |gateList| && 0 <= c < 5 ==>
        f[i, c] == [i, TypeIndex(gateList[i]) as int, gateSizes[0], eosK, gateSizes[i]][c]
    {
      ChainNumbered(name, gateList, gateSizes, driverSizes);
      f := circuit.MakeFeatureMatrix();
      forall i, c | 0 <= i < |gateList| && 0 <= c < 5
        ensures f[i, c] == [i, TypeIndex(gateList[i]) as int, gateSizes[0], eosK, gateSizes[i]][c]
      {
        ChainFeatureRow(name, gateList, gateSizes, driverSizes, eosK, i);
        assert Num(name, circuit.gates, i) == i;
      }
    }
  }
}
