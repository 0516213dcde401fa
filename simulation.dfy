/** A simulation: several circuits in one SPICE netlist, their components
    first and their delay measurements after the analysis commands. */
module Simulations {
  import opened Text
  import opened Components
  import opened Circuits

  predicate AllStructured(circuits: seq<Circuit>)
    reads circuits
  {
    forall i :: 0 <= i < |circuits| ==> circuits[i].Structured()
  }

  /** The component fragment of each circuit, in list order. */
  function ComponentParts(circuits: seq<Circuit>): (parts: seq<string>)
    reads circuits
    requires AllStructured(circuits)
    ensures |parts| == |circuits|
    ensures forall i :: 0 <= i < |circuits| ==> parts[i] == circuits[i].ComponentText()
  {
    seq(|circuits|, i requires 0 <= i < |circuits| && circuits[i].Structured() reads circuits =>
      circuits[i].ComponentText())
  }

  /** The measure line of each circuit, in list order. */
  function MeasureLines(circuits: seq<Circuit>): (lines: seq<string>)
    reads circuits
    requires AllStructured(circuits)
    ensures |lines| == |circuits|
    ensures forall i :: 0 <= i < |circuits| ==> lines[i] == circuits[i].MeasureText()
  {
    seq(|circuits|, i requires 0 <= i < |circuits| && circuits[i].Structured() reads circuits =>
      circuits[i].MeasureText())
  }

  /** The whole netlist: header, every circuit's components, the supply and
      the analysis commands, every circuit's measure line, and the end. */
  function SimulationText(circuits: seq<Circuit>): string
    reads circuits
    requires AllStructured(circuits)
  {
    Header + Concat(ComponentParts(circuits)) + Supply + Analysis + Concat(MeasureLines(circuits)) + Footer
  }

  lemma ConcatStep(parts: seq<string>, i: nat)
    requires i < |parts|
    ensures Concat(parts[..i + 1]) == Concat(parts[..i]) + parts[i]
  {
    assert parts[..i + 1][..i] == parts[..i];
  }

  lemma AppendAssoc(a: string, b: string, c: string)
    ensures a + b + c == a + (b + c)
  {
  }

  /** One more part appended after a head. */
  lemma AppendStep(head: string, parts: seq<string>, i: nat)
    requires i < |parts|
    ensures head + Concat(parts[..i]) + parts[i] == head + Concat(parts[..i + 1])
  {
    ConcatStep(parts, i);
    AppendAssoc(head, Concat(parts[..i]), parts[i]);
  }

  lemma ConcatSingle(x: string)
    ensures Concat([x]) == x
  {
    assert [x][..0] == [];
  }

  /** The netlist of a one-circuit simulation is that circuit's own netlist. */
  lemma SingleCircuit(c: Circuit)
    requires c.Structured()
    ensures SimulationText([c]) == c.NetlistText()
  {
    var components, measures := ComponentParts([c]), MeasureLines([c]);
    assert components == [c.ComponentText()];
    assert measures == [c.MeasureText()];
    ConcatSingle(c.ComponentText());
    ConcatSingle(c.MeasureText());
  }

  /** Without circuits only the fixed parts remain. */
  lemma NoCircuits()
    ensures SimulationText([]) == Header + Supply + Analysis + Footer
  {
    assert Concat([]) == "";
  }

  /** Line i of the measurements belongs to circuit i: it names that
      circuit and its first driver's output as the trigger, and ends on the
      falling edge exactly when the circuit is inverting. */
  lemma MeasureLineOf(circuits: seq<Circuit>, i: nat)
    requires AllStructured(circuits) && i < |circuits|
    ensures StartsWith(MeasureLines(circuits)[i],
                       ".MEASURE TRAN tdlay" + circuits[i].name + " TRIG V(" + circuits[i].voltageSources[0].1.outputNode + ")")
    ensures EndsWith(MeasureLines(circuits)[i], "FALL = 1\n") <==> circuits[i].inverting
  {
    var c := circuits[i];
    MeasureEnding(c.name, c.voltageSources[0].1.outputNode, GateOutput(c.eos.value.inputGate), c.inverting);
  }

  lemma PointwiseAppend<T>(whole: seq<T>, left: seq<T>, right: seq<T>)
    requires |whole| == |left| + |right|
    requires forall i :: 0 <= i < |left| ==> whole[i] == left[i]
    requires forall i :: 0 <= i < |right| ==> whole[|left| + i] == right[i]
    ensures whole == left + right
  {
    forall i | 0 <= i < |whole|
      ensures whole[i] == (left + right)[i]
    {
      if i >= |left| {
        assert whole[|left| + (i - |left|)] == right[i - |left|];
      }
    }
  }

  lemma AllStructuredAppend(a: seq<Circuit>, b: seq<Circuit>)
    requires AllStructured(a) && AllStructured(b)
    ensures AllStructured(a + b)
  {
    forall i | 0 <= i < |a + b|
      ensures (a + b)[i].Structured()
    {
      if i < |a| { assert (a + b)[i] == a[i]; } else { assert (a + b)[i] == b[i - |a|]; }
    }
  }

  lemma ComponentPartsAppend(a: seq<Circuit>, b: seq<Circuit>)
    requires AllStructured(a) && AllStructured(b) && AllStructured(a + b)
    ensures ComponentParts(a + b) == ComponentParts(a) + ComponentParts(b)
  {
    var whole, left, right := ComponentParts(a + b), ComponentParts(a), ComponentParts(b);
    forall i | 0 <= i < |a|
      ensures whole[i] == left[i]
    {
      assert (a + b)[i] == a[i];
    }
    forall i | 0 <= i < |b|
      ensures whole[|a| + i] == right[i]
    {
      assert (a + b)[|a| + i] == b[i];
    }
    PointwiseAppend(whole, left, right);
  }

  lemma MeasureLinesAppend(a: seq<Circuit>, b: seq<Circuit>)
    requires AllStructured(a) && AllStructured(b) && AllStructured(a + b)
    ensures MeasureLines(a + b) == MeasureLines(a) + MeasureLines(b)
  {
    var whole, left, right := MeasureLines(a + b), MeasureLines(a), MeasureLines(b);
    forall i | 0 <= i < |a|
      ensures whole[i] == left[i]
    {
      assert (a + b)[i] == a[i];
    }
    forall i | 0 <= i < |b|
      ensures whole[|a| + i] == right[i]
    {
      assert (a + b)[|a| + i] == b[i];
    }
    PointwiseAppend(whole, left, right);
  }


  /** Simulating one list of circuits after another gives both sets of
      components, in order, and both sets of measure lines, in order. */
  lemma TextsAppend(a: seq<Circuit>, b: seq<Circuit>)
    requires AllStructured(a) && AllStructured(b)
    ensures AllStructured(a + b)
    ensures Concat(ComponentParts(a + b)) == Concat(ComponentParts(a)) + Concat(ComponentParts(b))
    ensures Concat(MeasureLines(a + b)) == Concat(MeasureLines(a)) + Concat(MeasureLines(b))
  {
    AllStructuredAppend(a, b);
    ComponentPartsAppend(a, b);
    MeasureLinesAppend(a, b);
    ConcatAppend(ComponentParts(a), ComponentParts(b));
    ConcatAppend(MeasureLines(a), MeasureLines(b));
  }

  class Simulation {
    const name: string
    var netlist: string

    /** Simulation.__init__: the netlist is generated once, from the
        circuits as they are at that moment. */
    constructor (name: string, circuits: seq<Circuit>)
      requires AllStructured(circuits)
      ensures this.name == name && netlist == old(SimulationText(circuits))
    {
      var text := GenerateNetlist(circuits);
      this.name := name;
      netlist := text;
    }

    /** __generate_netlist: the header, then the first loop appending each
        circuit's components, the supply and analysis lines, the second loop
        appending each circuit's measure line, and the end. The field it
        accumulates in is overwritten with the same text by the constructor,
        so the text is accumulated in a local here. */
    static method GenerateNetlist(circuits: seq<Circuit>) returns (text: string)
      requires AllStructured(circuits)
      ensures text == old(SimulationText(circuits))
    {
      text := AppendComponents(circuits, Header);
      text := text + Supply;
      text := text + Analysis;
      text := AppendMeasures(circuits, text);
      text := text + Footer;
    }

    /** The first loop of __generate_netlist: each circuit's components, in
        list order. */
    static method AppendComponents(circuits: seq<Circuit>, head: string) returns (text: string)
      requires AllStructured(circuits)
      ensures text == head + old(Concat(ComponentParts(circuits)))
    {
      ghost var parts := ComponentParts(circuits);
      text := head;
      var i := 0;
      while i < |circuits|
        invariant 0 <= i <= |circuits|
        invariant text == head + Concat(parts[..i])
      {
        assert parts[i] == circuits[i].ComponentText();
        var part, _ := circuits[i].ReturnNetlist();
        AppendStep(head, parts, i);
        text := text + part;
        i := i + 1;
      }
      assert parts[..i] == parts;
    }

    /** The second loop of __generate_netlist: each circuit's measure line,
        in list order. */
    static method AppendMeasures(circuits: seq<Circuit>, head: string) returns (text: string)
      requires AllStructured(circuits)
      ensures text == head + old(Concat(MeasureLines(circuits)))
    {
      ghost var lines := MeasureLines(circuits);
      text := head;
      var i := 0;
      while i < |circuits|
        invariant 0 <= i <= |circuits|
        invariant text == head + Concat(lines[..i])
      {
        assert lines[i] == circuits[i].MeasureText();
        var _, line := circuits[i].ReturnNetlist();
        AppendStep(head, lines, i);
        text := text + line;
        i := i + 1;
      }
      assert lines[..i] == lines;
    }

    /** __repr__: the stored netlist. */
    function Repr(): (text: string)
      reads this
      ensures text == netlist
    {
      netlist
    }
  }
}
