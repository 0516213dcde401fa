/** Gate numbering and the graph of a circuit: which gate feeds which, as
    an edge list, an antisymmetric adjacency matrix and a feature matrix. */
module Numbering {
  import opened Wrappers
  import opened Text
  import opened Components
  import opened CircuitSpec
  import opened Sorting

  /** The number of a component of circuit `circuit`: `gate<n><circuit>` is
      n - 1, any other name ending in the circuit name is -1, and a name that
      does not end in it belongs to another circuit. */
  function GateNumber(circuit: string, name: string): (r: Result<int>)
    ensures r.Err? <==> !EndsWith(name, circuit)
                        || (StartsWith(name[..|name| - |circuit|], "gate")
                            && ParseInt(name[..|name| - |circuit|][4..]).None?)
  {
    if !EndsWith(name, circuit) then Err(NotInCircuit(name))
    else
      var stem := name[..|name| - |circuit|];
      if StartsWith(stem, "gate") then
        match ParseInt(stem[4..])
        case Some(n) => Ok(n - 1)
        case None => Err(NotAnInteger(stem[4..]))
      else Ok(-1)
  }

  /** `gate<n><circuit>` is numbered n - 1. */
  lemma GateNumberOfGateName(circuit: string, n: nat)
    ensures GateNumber(circuit, "gate" + NatStr(n) + circuit) == Ok(n - 1)
  {
    var name := "gate" + NatStr(n) + circuit;
    assert name[..|name| - |circuit|] == "gate" + NatStr(n);
    assert name[|name| - |circuit|..] == circuit;
    assert ("gate" + NatStr(n))[4..] == NatStr(n);
    ParseNatStr(n);
  }

  /** A name of the circuit whose stem does not start with "gate" is -1. */
  lemma GateNumberOfOtherName(circuit: string, stem: string)
    requires !StartsWith(stem, "gate")
    ensures GateNumber(circuit, stem + circuit) == Ok(-1)
  {
    var name := stem + circuit;
    assert name[..|name| - |circuit|] == stem;
    assert name[|name| - |circuit|..] == circuit;
  }

  /** A name that does not end in the circuit name is refused. */
  lemma GateNumberOfForeignName(circuit: string, name: string)
    requires !EndsWith(name, circuit)
    ensures GateNumber(circuit, name) == Err(NotInCircuit(name))
  {
  }

  /** The edges contributed by one gate numbered d: an edge from each input
      in order, unless either end is numbered -1. */
  function InputEdges(circuit: string, d: int, inputs: seq<Component>): Result<seq<Edge>> {
    if inputs == [] then Ok([])
    else
      match InputEdges(circuit, d, inputs[..|inputs| - 1])
      case Err(e) => Err(e)
      case Ok(es) =>
        match GateNumber(circuit, ComponentName(inputs[|inputs| - 1]))
        case Err(e) => Err(e)
        case Ok(s) => Ok(if s != -1 && d != -1 then es + [(s, d)] else es)
  }

  /** The input-to-gate edges in visiting order, duplicates included; the
      gate's own number is taken before its inputs are looked at. */
  function EdgeList(circuit: string, gates: Dict<Gate>): Result<seq<Edge>> {
    if gates == [] then Ok([])
    else
      match EdgeList(circuit, gates[..|gates| - 1])
      case Err(e) => Err(e)
      case Ok(es) =>
        var g := gates[|gates| - 1].1;
        match GateNumber(circuit, g.name)
        case Err(e) => Err(e)
        case Ok(d) =>
          match InputEdges(circuit, d, g.inputs)
          case Err(e) => Err(e)
          case Ok(more) => Ok(es + more)
  }

  /** Once a prefix of the gates fails, the edge list fails the same way. */
  lemma {:induction false} EdgeListPrefixErr(circuit: string, gates: Dict<Gate>, m: nat)
    requires m <= |gates| && EdgeList(circuit, gates[..m]).Err?
    ensures EdgeList(circuit, gates) == EdgeList(circuit, gates[..m])
  {
    if m < |gates| {
      assert gates[..|gates| - 1][..m] == gates[..m];
      EdgeListPrefixErr(circuit, gates[..|gates| - 1], m);
    } else {
      assert gates[..m] == gates;
    }
  }

  /** Once a prefix of the inputs fails, the gate's edges fail the same way. */
  lemma {:induction false} InputEdgesPrefixErr(circuit: string, d: int, inputs: seq<Component>, m: nat)
    requires m <= |inputs| && InputEdges(circuit, d, inputs[..m]).Err?
    ensures InputEdges(circuit, d, inputs) == InputEdges(circuit, d, inputs[..m])
  {
    if m < |inputs| {
      assert inputs[..|inputs| - 1][..m] == inputs[..m];
      InputEdgesPrefixErr(circuit, d, inputs[..|inputs| - 1], m);
    } else {
      assert inputs[..m] == inputs;
    }
  }

  /** No edge touches a component numbered -1. */
  lemma {:induction false} InputEdgesNumbered(circuit: string, d: int, inputs: seq<Component>)
    requires InputEdges(circuit, d, inputs).Ok?
    ensures forall e :: e in InputEdges(circuit, d, inputs).value ==> e.0 != -1 && e.1 == d != -1
  {
    if inputs != [] {
      InputEdgesNumbered(circuit, d, inputs[..|inputs| - 1]);
    }
  }

  /** The conforming numbering the matrices rely on: the gates are numbered
      0 .. N-1 without repetition, and every source is numbered -1. */
  predicate Numbered(circuit: string, gates: Dict<Gate>, sources: Dict<VoltageSource>) {
    && (forall i :: 0 <= i < |gates| ==> GateNumber(circuit, gates[i].0).Ok?)
    && (forall i :: 0 <= i < |gates| ==> 0 <= GateNumber(circuit, gates[i].0).value < |gates|)
    && (forall i, j :: 0 <= i < j < |gates| ==> GateNumber(circuit, gates[i].0) != GateNumber(circuit, gates[j].0))
    && (forall j :: 0 <= j < |sources| ==> GateNumber(circuit, sources[j].0) == Ok(-1))
  }

  /** The number of the i-th gate. */
  function Num(circuit: string, gates: Dict<Gate>, i: nat): (n: nat)
    requires i < |gates| && GateNumber(circuit, gates[i].0).Ok? && GateNumber(circuit, gates[i].0).value >= 0
  {
    GateNumber(circuit, gates[i].0).value
  }

  /** Every edge of input k-prefix of gate i runs from an earlier gate to gate i. */
  lemma {:induction false} InputEdgesEarlier(circuit: string, gates: Dict<Gate>, sources: Dict<VoltageSource>, i: nat, k: nat)
    requires GatesOk(gates, sources) && SourcesOk(sources) && Numbered(circuit, gates, sources)
    requires i < |gates| && k <= |gates[i].1.inputs|
    ensures var r := InputEdges(circuit, Num(circuit, gates, i), gates[i].1.inputs[..k]);
      && r.Ok?
      && forall e :: e in r.value ==> exists j :: 0 <= j < i && e == (Num(circuit, gates, j), Num(circuit, gates, i))
  {
    var inputs := gates[i].1.inputs;
    var d := Num(circuit, gates, i);
    if k > 0 {
      InputEdgesEarlier(circuit, gates, sources, i, k - 1);
      assert InputBuilt(inputs[k - 1], gates[..i], sources);
      InputNumber(circuit, gates, sources, i, inputs[k - 1]);
      InputEdgesExtend(circuit, d, inputs, k - 1);
      var local := InputEdges(circuit, d, inputs[..k - 1]).value;
      var sn := GateNumber(circuit, ComponentName(inputs[k - 1])).value;
      if sn != -1 {
        var j :| 0 <= j < i && sn == Num(circuit, gates, j);
        forall e | e in local + [(sn, d)]
          ensures exists j' :: 0 <= j' < i && e == (Num(circuit, gates, j'), d)
        {
          if e !in local {
            assert e == (Num(circuit, gates, j), d);
          }
        }
      }
    }
  }

  /** The edges of one more input: at most the edge from that input. */
  lemma InputEdgesExtend(circuit: string, d: int, inputs: seq<Component>, k: nat)
    requires k < |inputs| && InputEdges(circuit, d, inputs[..k]).Ok?
    requires GateNumber(circuit, ComponentName(inputs[k])).Ok?
    ensures var sn := GateNumber(circuit, ComponentName(inputs[k])).value;
      var local := InputEdges(circuit, d, inputs[..k]).value;
      InputEdges(circuit, d, inputs[..k + 1]) == Ok(if sn != -1 && d != -1 then local + [(sn, d)] else local)
  {
    assert inputs[..k + 1][..k] == inputs[..k];
  }

  /** An input built before gate i is a source, numbered -1, or an earlier
      gate, carrying that gate's number. */
  lemma InputNumber(circuit: string, gates: Dict<Gate>, sources: Dict<VoltageSource>, i: nat, c: Component)
    requires SourcesOk(sources) && Numbered(circuit, gates, sources)
    requires i < |gates| && InputBuilt(c, gates[..i], sources)
    ensures || GateNumber(circuit, ComponentName(c)) == Ok(-1)
            || exists j :: 0 <= j < i && GateNumber(circuit, ComponentName(c)) == Ok(Num(circuit, gates, j))
  {
    match c
    case G(g) =>
      var j :| 0 <= j < i && gates[..i][j] == (g.name, g);
      assert GateNumber(circuit, ComponentName(c)) == Ok(Num(circuit, gates, j));
    case S(s) =>
      var j :| 0 <= j < |sources| && sources[j] == (s.name, s);
  }

  /** Every edge of the first m gates runs from a gate to a later gate, and
      computing the edges cannot fail. */
  lemma {:induction false} EdgesEarlier(circuit: string, gates: Dict<Gate>, sources: Dict<VoltageSource>, m: nat)
    requires GatesOk(gates, sources) && SourcesOk(sources) && Numbered(circuit, gates, sources)
    requires m <= |gates|
    ensures var r := EdgeList(circuit, gates[..m]);
      && r.Ok?
      && forall e :: e in r.value ==>
           exists i, j :: 0 <= j < i < m && e == (Num(circuit, gates, j), Num(circuit, gates, i))
  {
    if m > 0 {
      EdgesEarlier(circuit, gates, sources, m - 1);
      var g := gates[m - 1].1;
      assert g.inputs[..|g.inputs|] == g.inputs;
      InputEdgesEarlier(circuit, gates, sources, m - 1, |g.inputs|);
      EdgeListExtend(circuit, gates, m - 1);
      var es := EdgeList(circuit, gates[..m - 1]).value;
      var more := InputEdges(circuit, Num(circuit, gates, m - 1), g.inputs).value;
      forall e | e in es + more
        ensures exists i, j :: 0 <= j < i < m && e == (Num(circuit, gates, j), Num(circuit, gates, i))
      {
        if e in es {
          var i, j :| 0 <= j < i < m - 1 && e == (Num(circuit, gates, j), Num(circuit, gates, i));
          assert 0 <= j < i < m;
        } else {
          var j :| 0 <= j < m - 1 && e == (Num(circuit, gates, j), Num(circuit, gates, m - 1));
          assert 0 <= j < m - 1 < m;
        }
      }
    }
  }

  /** The edges of one more gate, named after its key. */
  lemma EdgeListExtend(circuit: string, gates: Dict<Gate>, i: nat)
    requires i < |gates| && EdgeList(circuit, gates[..i]).Ok? && gates[i].1.name == gates[i].0
    requires GateNumber(circuit, gates[i].0).Ok?
    requires InputEdges(circuit, GateNumber(circuit, gates[i].0).value, gates[i].1.inputs).Ok?
    ensures EdgeList(circuit, gates[..i + 1])
            == Ok(EdgeList(circuit, gates[..i]).value
                  + InputEdges(circuit, GateNumber(circuit, gates[i].0).value, gates[i].1.inputs).value)
  {
    assert gates[..i + 1][..i] == gates[..i];
  }

  /** The set of edges is irreflexive and antisymmetric, and every edge
      joins two gates of the circuit. */
  predicate Oriented(edges: seq<Edge>, n: nat) {
    forall e :: e in edges ==> 0 <= e.0 < n && 0 <= e.1 < n && e.0 != e.1 && (e.1, e.0) !in edges
  }

  /** Edges that each run from a gate to a later one are oriented. */
  lemma EarlierEdgesOriented(circuit: string, gates: Dict<Gate>, sources: Dict<VoltageSource>, edges: seq<Edge>)
    requires Numbered(circuit, gates, sources)
    requires forall e :: e in edges ==>
      exists i, j :: 0 <= j < i < |gates| && e == (Num(circuit, gates, j), Num(circuit, gates, i))
    ensures Oriented(edges, |gates|)
  {
    forall e | e in edges
      ensures 0 <= e.0 < |gates| && 0 <= e.1 < |gates| && e.0 != e.1 && (e.1, e.0) !in edges
    {
      var i, j :| 0 <= j < i < |gates| && e == (Num(circuit, gates, j), Num(circuit, gates, i));
      if (e.1, e.0) in edges {
        var i', j' :| 0 <= j' < i' < |gates| && (e.1, e.0) == (Num(circuit, gates, j'), Num(circuit, gates, i'));
        NumInjective(circuit, gates, sources, i, j');
      }
      NumInjective(circuit, gates, sources, i, j);
    }
  }

  /** When the first i + 1 gates have edges, they are those of the first i
      followed by the edges into gate i. */
  lemma EdgeListStep(circuit: string, gates: Dict<Gate>, i: nat)
    requires i < |gates| && EdgeList(circuit, gates[..i + 1]).Ok?
    ensures EdgeList(circuit, gates[..i]).Ok? && GateNumber(circuit, gates[i].1.name).Ok?
    ensures InputEdges(circuit, GateNumber(circuit, gates[i].1.name).value, gates[i].1.inputs).Ok?
    ensures EdgeList(circuit, gates[..i + 1]).value
            == EdgeList(circuit, gates[..i]).value
               + InputEdges(circuit, GateNumber(circuit, gates[i].1.name).value, gates[i].1.inputs).value
  {
    assert gates[..i + 1][..i] == gates[..i];
  }

  /** Under a conforming numbering the edges before gate i together with
      the edges into it are oriented. */
  lemma GateEdgesOriented(circuit: string, gates: Dict<Gate>, sources: Dict<VoltageSource>, i: nat)
    requires GatesOk(gates, sources) && SourcesOk(sources) && Numbered(circuit, gates, sources)
    requires i < |gates|
    ensures EdgeList(circuit, gates[..i]).Ok? && GateNumber(circuit, gates[i].1.name).Ok?
    ensures InputEdges(circuit, GateNumber(circuit, gates[i].1.name).value, gates[i].1.inputs).Ok?
    ensures Oriented(EdgeList(circuit, gates[..i]).value
                     + InputEdges(circuit, GateNumber(circuit, gates[i].1.name).value, gates[i].1.inputs).value, |gates|)
    ensures EdgeList(circuit, gates[..i + 1])
            == Ok(EdgeList(circuit, gates[..i]).value
                  + InputEdges(circuit, GateNumber(circuit, gates[i].1.name).value, gates[i].1.inputs).value)
  {
    EdgesEarlier(circuit, gates, sources, i + 1);
    EarlierEdgesOriented(circuit, gates, sources, EdgeList(circuit, gates[..i + 1]).value);
    EdgeListStep(circuit, gates, i);
  }

  /** Under a conforming numbering no gate feeds itself and no two gates
      feed each other, because every input is built before its gate. */
  lemma EdgesOriented(circuit: string, gates: Dict<Gate>, sources: Dict<VoltageSource>)
    requires GatesOk(gates, sources) && SourcesOk(sources) && Numbered(circuit, gates, sources)
    ensures EdgeList(circuit, gates).Ok?
    ensures Oriented(EdgeList(circuit, gates).value, |gates|)
  {
    assert gates[..|gates|] == gates;
    EdgesEarlier(circuit, gates, sources, |gates|);
    EarlierEdgesOriented(circuit, gates, sources, EdgeList(circuit, gates).value);
  }

  lemma NumInjective(circuit: string, gates: Dict<Gate>, sources: Dict<VoltageSource>, i: nat, j: nat)
    requires Numbered(circuit, gates, sources) && i < |gates| && j < |gates|
    ensures Num(circuit, gates, i) == Num(circuit, gates, j) <==> i == j
  {
    if i < j {
      assert GateNumber(circuit, gates[i].0) != GateNumber(circuit, gates[j].0);
    } else if j < i {
      assert GateNumber(circuit, gates[j].0) != GateNumber(circuit, gates[i].0);
    }
  }

  /** The edges of a list, as the set the source collects them in. */
  function EdgeSet(edges: seq<Edge>): set<Edge> {
    set e | e in edges
  }

  /** The adjacency-matrix entry of an edge set: 1 from source to target,
      -1 back, 0 between gates that are not joined. */
  function MatrixEntry(edges: set<Edge>, s: int, d: int): int {
    if (s, d) in edges then 1 else if (d, s) in edges then -1 else 0
  }

  /** On an oriented edge list the matrix is antisymmetric with entries in
      {-1, 0, 1}, and an edge is listed exactly when its entry is 1 and the
      mirrored entry -1. */
  lemma MatrixAgreesWithList(edges: seq<Edge>, n: nat, s: int, d: int)
    requires Oriented(edges, n)
    ensures MatrixEntry(EdgeSet(edges), s, d) == -MatrixEntry(EdgeSet(edges), d, s)
    ensures MatrixEntry(EdgeSet(edges), s, d) in {-1, 0, 1}
    ensures (s, d) in edges <==> MatrixEntry(EdgeSet(edges), s, d) == 1 && MatrixEntry(EdgeSet(edges), d, s) == -1
    ensures s == d ==> MatrixEntry(EdgeSet(edges), s, d) == 0
  {
    if (s, d) in edges {
      assert (d, s) !in edges;
    }
  }

  /** A prefix of a gate's inputs gives a prefix of its edges. */
  lemma {:induction false} InputEdgesPrefix(circuit: string, d: int, inputs: seq<Component>, m: nat)
    requires m <= |inputs| && InputEdges(circuit, d, inputs).Ok?
    ensures InputEdges(circuit, d, inputs[..m]).Ok?
    ensures InputEdges(circuit, d, inputs[..m]).value <= InputEdges(circuit, d, inputs).value
  {
    if m < |inputs| {
      assert inputs[..|inputs| - 1][..m] == inputs[..m];
      InputEdgesPrefix(circuit, d, inputs[..|inputs| - 1], m);
    } else {
      assert inputs[..m] == inputs;
    }
  }

  /** Part of an oriented edge set is oriented. */
  lemma OrientedSubset(sub: seq<Edge>, full: seq<Edge>, n: nat)
    requires Oriented(full, n) && forall e :: e in sub ==> e in full
    ensures Oriented(sub, n)
  {
  }

  /** One step of the matrix construction at input k of a gate numbered d
      whose edges, with those already seen, are oriented: the input is
      numbered, it adds at most the one edge (input, d), and that edge is
      neither a loop nor the mirror of an edge seen so far. */
  lemma MatrixStep(circuit: string, d: int, inputs: seq<Component>, k: nat, edges: seq<Edge>, n: nat)
    requires k < |inputs| && InputEdges(circuit, d, inputs).Ok?
    requires Oriented(edges + InputEdges(circuit, d, inputs).value, n)
    ensures InputEdges(circuit, d, inputs[..k]).Ok? && InputEdges(circuit, d, inputs[..k + 1]).Ok?
    ensures GateNumber(circuit, ComponentName(inputs[k])).Ok?
    ensures var sn := GateNumber(circuit, ComponentName(inputs[k])).value;
      var local := InputEdges(circuit, d, inputs[..k]).value;
      && InputEdges(circuit, d, inputs[..k + 1]).value == (if sn != -1 && d != -1 then local + [(sn, d)] else local)
      && (sn != -1 && d != -1 ==> 0 <= sn < n && 0 <= d < n && sn != d && (d, sn) !in edges + local)
  {
    assert inputs[..k + 1][..k] == inputs[..k];
    InputEdgesPrefix(circuit, d, inputs, k + 1);
    var full := InputEdges(circuit, d, inputs).value;
    var next := InputEdges(circuit, d, inputs[..k + 1]).value;
    assert forall e :: e in next ==> e in full by {
      forall e | e in next ensures e in full {
        var x :| 0 <= x < |next| && next[x] == e;
        assert full[x] == e;
      }
    }
    var sn := GateNumber(circuit, ComponentName(inputs[k])).value;
    if sn != -1 && d != -1 {
      var local := InputEdges(circuit, d, inputs[..k]).value;
      OrientedSubset(edges + next, edges + full, n);
      assert (edges + local) + [(sn, d)] == edges + next;
      assert (sn, d) in edges + next;
    }
  }

  /** Appending an edge to a list adds it to the set. */
  lemma EdgeSetAppend(edges: seq<Edge>, e: Edge)
    ensures EdgeSet(edges + [e]) == EdgeSet(edges) + {e}
  {
  }

  /** Lists with the same edge set have the same members. */
  lemma SameEdgeSet(a: seq<Edge>, b: seq<Edge>)
    requires EdgeSet(a) == EdgeSet(b)
    ensures forall e :: e in a <==> e in b
  {
    forall e ensures e in a <==> e in b {
      assert e in a <==> e in EdgeSet(a);
    }
  }

  /** The edges of a concatenation are those of both parts. */
  lemma EdgeSetConcat(a: seq<Edge>, b: seq<Edge>)
    ensures EdgeSet(a + b) == EdgeSet(a) + EdgeSet(b)
  {
  }

  /** One step of a gate's input loop, stated on the set of edges seen so far:
      an input with a gate number adds a new edge, neither a loop nor the
      mirror of a seen edge; any other input adds nothing. */
  lemma EdgeSetStep(circuit: string, d: int, inputs: seq<Component>, k: nat, edges: seq<Edge>, n: nat, seen: set<Edge>)
    requires k < |inputs| && InputEdges(circuit, d, inputs).Ok?
    requires Oriented(edges + InputEdges(circuit, d, inputs).value, n)
    requires InputEdges(circuit, d, inputs[..k]).Ok?
    requires seen == EdgeSet(edges + InputEdges(circuit, d, inputs[..k]).value)
    ensures InputEdges(circuit, d, inputs[..k + 1]).Ok?
    ensures GateNumber(circuit, ComponentName(inputs[k])).Ok?
    ensures var sn := GateNumber(circuit, ComponentName(inputs[k])).value;
      var next := EdgeSet(edges + InputEdges(circuit, d, inputs[..k + 1]).value);
      && (sn != -1 && d != -1 ==> 0 <= sn < n && 0 <= d < n && sn != d && (d, sn) !in seen && next == seen + {(sn, d)})
      && (!(sn != -1 && d != -1) ==> next == seen)
  {
    MatrixStep(circuit, d, inputs, k, edges, n);
    var sn := GateNumber(circuit, ComponentName(inputs[k])).value;
    var local := InputEdges(circuit, d, inputs[..k]).value;
    var next := InputEdges(circuit, d, inputs[..k + 1]).value;
    if sn != -1 && d != -1 {
      AppendEdge(edges, local, (sn, d), (d, sn));
    } else {
      assert edges + next == edges + local;
    }
  }

  /** One more edge e after a prefix adds e to the prefix's set; an edge
      missing from the list is missing from its set. */
  lemma AppendEdge(edges: seq<Edge>, local: seq<Edge>, e: Edge, mirror: Edge)
    requires mirror !in edges + local
    ensures EdgeSet(edges + (local + [e])) == EdgeSet(edges + local) + {e}
    ensures mirror !in EdgeSet(edges + local)
  {
    assert edges + (local + [e]) == (edges + local) + [e];
    EdgeSetAppend(edges + local, e);
  }

  /** The row of the feature matrix for the i-th gate: its number, the index
      of its type, the sizing of the first gate, the sizing of the end of
      sequence, and its own sizing. */
  function FeatureRow(circuit: string, gates: Dict<Gate>, eosK: int, i: nat): (row: seq<int>)
    requires i < |gates| && GateNumber(circuit, gates[i].0).Ok? && GateNumber(circuit, gates[i].0).value >= 0
    ensures |row| == 5
  {
    [Num(circuit, gates, i), TypeIndex(gates[i].1.gtype) as int, gates[0].1.k, eosK, gates[i].1.k]
  }
}
