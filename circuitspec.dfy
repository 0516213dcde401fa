/** What the circuit constructor builds from its three dictionaries: every
    key and reference namespaced with the circuit name, then the voltage
    sources, then the gates in insertion order (each input resolved against
    what is already built), then the end of sequence. */
module CircuitSpec {
  import opened Wrappers
  import opened Text
  import opened Components
  import opened Gates
  import opened VoltageSources
  import opened EndOfSequences

  /** An insertion-ordered dictionary with string keys. */
  type Dict<T> = seq<(string, T)>

  predicate DistinctKeys<T>(d: Dict<T>) {
    forall i, j :: 0 <= i < j < |d| ==> d[i].0 != d[j].0
  }

  /** Dictionary lookup. */
  function Lookup<T>(d: Dict<T>, key: string): (r: Option<T>)
    ensures r.Some? ==> (key, r.value) in d
    ensures r.None? ==> forall i :: 0 <= i < |d| ==> d[i].0 != key
  {
    if d == [] then None
    else if d[|d| - 1].0 == key then Some(d[|d| - 1].1)
    else
      var r := Lookup(d[..|d| - 1], key);
      assert r.Some? ==> (key, r.value) in d by {
        if r.Some? {
          var i :| 0 <= i < |d| - 1 && d[..|d| - 1][i] == (key, r.value);
          assert d[i] == (key, r.value);
        }
      }
      r
  }

  /** In a dictionary with distinct keys, looking up a key finds its entry. */
  lemma LookupEntry<T>(d: Dict<T>, i: nat)
    requires DistinctKeys(d) && i < |d|
    ensures Lookup(d, d[i].0) == Some(d[i].1)
  {
    if i < |d| - 1 {
      LookupEntry(d[..|d| - 1], i);
    }
  }

  /** The dictionary comprehension `{key + name: value ...}`. */
  function Suffixed<T>(d: Dict<T>, suffix: string): Dict<T> {
    seq(|d|, i requires 0 <= i < |d| => (d[i].0 + suffix, d[i].1))
  }

  /** Namespacing keeps the keys of a dictionary distinct. */
  lemma SuffixedDistinct<T>(d: Dict<T>, suffix: string)
    requires DistinctKeys(d)
    ensures DistinctKeys(Suffixed(d, suffix))
  {
    forall i, j | 0 <= i < j < |d|
      ensures Suffixed(d, suffix)[i].0 != Suffixed(d, suffix)[j].0
    {
      if d[i].0 + suffix == d[j].0 + suffix {
        SuffixInjective(d[i].0, d[j].0, suffix);
      }
    }
  }

  predicate IsNameList(v: Value) {
    v.List? && forall i :: 0 <= i < |v.items| ==> v.items[i].Str?
  }

  /** Namespacing the gate dictionary keeps its keys distinct. */
  lemma NamespaceGatesDistinct(gd: Dict<Config>, suffix: string)
    requires DistinctKeys(gd) && NamespaceGates(gd, suffix).Ok?
    ensures DistinctKeys(NamespaceGates(gd, suffix).value)
  {
    var r := NamespaceGates(gd, suffix).value;
    SuffixedDistinct(gd, suffix);
    assert forall i :: 0 <= i < |gd| ==> r[i].0 == Suffixed(gd, suffix)[i].0;
  }

  /** `[item + name for item in v]`: a list of names is suffixed name by
      name, a string is iterated character by character, and anything else
      cannot be iterated or concatenated. */
  function SuffixedNames(v: Value, suffix: string): (r: Result<Value>)
    ensures r.Ok? ==> IsNameList(r.value)
  {
    match v
    case List(items) =>
      if forall i :: 0 <= i < |items| ==> items[i].Str? then
        Ok(List(seq(|items|, i requires 0 <= i < |items| => Str(items[i].s + suffix))))
      else Err(NotAString("input_components"))
    case Str(s) => Ok(List(seq(|s|, i requires 0 <= i < |s| => Str([s[i]] + suffix))))
    case _ => Err(NotIterable("input_components"))
  }

  /** Every gate entry carries a list of input names. */
  predicate Namespaced(gd: Dict<Config>) {
    forall i :: 0 <= i < |gd| ==> "input_components" in gd[i].1 && IsNameList(gd[i].1["input_components"])
  }

  /** The gate dictionary after namespacing: keys suffixed, and each entry's
      input names suffixed in place, entry by entry in insertion order. */
  function NamespaceGates(gd: Dict<Config>, suffix: string): (r: Result<Dict<Config>>)
    ensures r.Ok? ==> |r.value| == |gd| && Namespaced(r.value)
    ensures r.Ok? ==> forall i :: 0 <= i < |gd| ==> r.value[i].0 == gd[i].0 + suffix
  {
    if gd == [] then Ok([])
    else
      match NamespaceGates(gd[..|gd| - 1], suffix)
      case Err(e) => Err(e)
      case Ok(done) =>
        var (key, config) := gd[|gd| - 1];
        if "input_components" !in config then Err(KeyError("input_components"))
        else
          match SuffixedNames(config["input_components"], suffix)
          case Err(e) => Err(e)
          case Ok(names) => Ok(done + [(key + suffix, config["input_components" := names])])
  }

  /** The entry of one gate when namespacing succeeds: a list of names has
      each name suffixed, and no other key of the entry changes. */
  lemma {:induction false} NamespacedEntry(gd: Dict<Config>, suffix: string, i: nat)
    requires NamespaceGates(gd, suffix).Ok? && i < |gd|
    ensures "input_components" in gd[i].1
    ensures var names := SuffixedNames(gd[i].1["input_components"], suffix);
      names.Ok? && NamespaceGates(gd, suffix).value[i] == (gd[i].0 + suffix, gd[i].1["input_components" := names.value])
  {
    if i < |gd| - 1 {
      NamespacedEntry(gd[..|gd| - 1], suffix, i);
    }
  }

  /** The first entry without input names, or with input names that are not
      all strings, decides the error; the entries after it are never looked at. */
  lemma {:induction false} NamespaceFirstFailure(gd: Dict<Config>, suffix: string, i: nat)
    requires i < |gd|
    requires forall j :: 0 <= j < i ==> "input_components" in gd[j].1 && SuffixedNames(gd[j].1["input_components"], suffix).Ok?
    requires "input_components" !in gd[i].1 || SuffixedNames(gd[i].1["input_components"], suffix).Err?
    ensures NamespaceGates(gd, suffix)
         == Err(if "input_components" !in gd[i].1 then KeyError("input_components")
                else SuffixedNames(gd[i].1["input_components"], suffix).error)
  {
    if i == |gd| - 1 {
      NamespacePrefixOk(gd[..|gd| - 1], suffix);
    } else {
      NamespaceFirstFailure(gd[..|gd| - 1], suffix, i);
    }
  }

  lemma {:induction false} NamespacePrefixOk(gd: Dict<Config>, suffix: string)
    requires forall j :: 0 <= j < |gd| ==> "input_components" in gd[j].1 && SuffixedNames(gd[j].1["input_components"], suffix).Ok?
    ensures NamespaceGates(gd, suffix).Ok?
  {
    if gd != [] {
      NamespacePrefixOk(gd[..|gd| - 1], suffix);
    }
  }

  /** Once a prefix of the entries fails, namespacing fails the same way. */
  lemma {:induction false} NamespacePrefixErr(gd: Dict<Config>, suffix: string, m: nat)
    requires m <= |gd| && NamespaceGates(gd[..m], suffix).Err?
    ensures NamespaceGates(gd, suffix) == NamespaceGates(gd[..m], suffix)
  {
    if m < |gd| {
      assert gd[..|gd| - 1][..m] == gd[..m];
      NamespacePrefixErr(gd[..|gd| - 1], suffix, m);
    } else {
      assert gd[..m] == gd;
    }
  }

  /** The end-of-sequence dictionary with its input gate name suffixed. */
  function NamespaceEos(ed: Config, suffix: string): (r: Result<Config>)
    ensures r.Ok? ==> "input_gate" in ed && ed["input_gate"].Str?
    ensures r.Ok? ==> r.value == ed["input_gate" := Str(ed["input_gate"].s + suffix)]
  {
    if "input_gate" !in ed then Err(KeyError("input_gate"))
    else if !ed["input_gate"].Str? then Err(NotAString("input_gate"))
    else Ok(ed["input_gate" := Str(ed["input_gate"].s + suffix)])
  }

  /** The sources, built in insertion order, each named after its key. */
  function BuildSources(vd: Dict<Config>): (r: Result<Dict<VoltageSource>>)
    ensures r.Ok? ==> |r.value| == |vd| && SourcesOk(r.value)
    ensures r.Ok? ==> forall i :: 0 <= i < |vd| ==> r.value[i].0 == vd[i].0
  {
    if vd == [] then Ok([])
    else
      match BuildSources(vd[..|vd| - 1])
      case Err(e) => Err(e)
      case Ok(done) =>
        var (key, config) := vd[|vd| - 1];
        match VoltageSourceOf(config["name" := Str(key)])
        case Err(e) => Err(e)
        case Ok(s) => Ok(done + [(key, s)])
  }

  /** Once a prefix of the sources fails, the whole build fails the same way. */
  lemma {:induction false} BuildSourcesPrefixErr(vd: Dict<Config>, m: nat)
    requires m <= |vd| && BuildSources(vd[..m]).Err?
    ensures BuildSources(vd) == BuildSources(vd[..m])
  {
    if m < |vd| {
      assert vd[..|vd| - 1][..m] == vd[..m];
      BuildSourcesPrefixErr(vd[..|vd| - 1], m);
    } else {
      assert vd[..m] == vd;
    }
  }

  /** Each source is named after its key and well formed. */
  predicate SourcesOk(sources: Dict<VoltageSource>) {
    forall j :: 0 <= j < |sources| ==> sources[j].1.name == sources[j].0 && WellFormedSource(sources[j].1)
  }

  /** The input components of a gate: each name is looked up among the gates
      built so far, then among the sources; a name found in neither is
      skipped without a word. */
  function Resolve(names: seq<Value>, built: Dict<Gate>, sources: Dict<VoltageSource>): (r: seq<Component>)
    requires forall i :: 0 <= i < |names| ==> names[i].Str?
    ensures |r| <= |names|
  {
    if names == [] then []
    else
      var init := Resolve(names[..|names| - 1], built, sources);
      var name := names[|names| - 1].s;
      match Lookup(built, name)
      case Some(g) => init + [G(g)]
      case None =>
        match Lookup(sources, name)
        case Some(s) => init + [S(s)]
        case None => init
  }

  /** A name that refers to something already built. */
  predicate Resolvable(name: string, built: Dict<Gate>, sources: Dict<VoltageSource>) {
    Lookup(built, name).Some? || Lookup(sources, name).Some?
  }

  /** Nothing is lost exactly when every name refers to something built. */
  lemma {:induction false} ResolveComplete(names: seq<Value>, built: Dict<Gate>, sources: Dict<VoltageSource>)
    requires forall i :: 0 <= i < |names| ==> names[i].Str?
    ensures |Resolve(names, built, sources)| == |names|
        <==> forall i :: 0 <= i < |names| ==> Resolvable(names[i].s, built, sources)
  {
    if names != [] {
      var init := names[..|names| - 1];
      ResolveComplete(init, built, sources);
      assert forall i :: 0 <= i < |init| ==> init[i] == names[i];
    }
  }

  /** An input of a gate is a gate built before it or one of the sources. */
  predicate InputBuilt(c: Component, earlier: Dict<Gate>, sources: Dict<VoltageSource>) {
    match c
    case G(g) => (g.name, g) in earlier
    case S(s) => (s.name, s) in sources
  }

  /** Each gate is named after its key, well formed, and fed only by gates
      before it and by sources. */
  predicate GatesOk(gates: Dict<Gate>, sources: Dict<VoltageSource>) {
    forall i :: 0 <= i < |gates| ==>
      && gates[i].1.name == gates[i].0
      && WellFormed(gates[i].1)
      && forall k :: 0 <= k < |gates[i].1.inputs| ==> InputBuilt(gates[i].1.inputs[k], gates[..i], sources)
  }

  /** Resolved components are built gates or sources. */
  lemma {:induction false} ResolveBuilt(names: seq<Value>, built: Dict<Gate>, sources: Dict<VoltageSource>)
    requires forall i :: 0 <= i < |names| ==> names[i].Str?
    requires forall j :: 0 <= j < |built| ==> built[j].1.name == built[j].0
    requires SourcesOk(sources)
    ensures forall c :: c in Resolve(names, built, sources) ==> InputBuilt(c, built, sources)
  {
    if names != [] {
      var init := names[..|names| - 1];
      ResolveBuilt(init, built, sources);
      var name := names[|names| - 1].s;
      var r0 := Resolve(init, built, sources);
      var r := Resolve(names, built, sources);
      match Lookup(built, name)
      case Some(g) =>
        var j :| 0 <= j < |built| && built[j] == (name, g);
        assert built[j] == (g.name, g);
        assert r == r0 + [G(g)];
      case None =>
        match Lookup(sources, name)
        case Some(s) =>
          var j :| 0 <= j < |sources| && sources[j] == (name, s);
          assert sources[j] == (s.name, s);
          assert r == r0 + [S(s)];
        case None =>
          assert r == r0;
    }
  }

  /** The configuration a gate is built from; its type and sizing are
      looked up in that order. */
  function GateConfigOf(key: string, config: Config, built: Dict<Gate>, sources: Dict<VoltageSource>): (r: Result<Config>)
    requires "input_components" in config && IsNameList(config["input_components"])
  {
    if "type" !in config then Err(KeyError("type"))
    else if "k" !in config then Err(KeyError("k"))
    else
      var inputs := Resolve(config["input_components"].items, built, sources);
      Ok(map["name" := Str(key), "type" := config["type"], "k" := config["k"],
             "input_components" := ComponentList(inputs)])
  }

  function BuildGate(key: string, config: Config, built: Dict<Gate>, sources: Dict<VoltageSource>): Result<Gate>
    requires "input_components" in config && IsNameList(config["input_components"])
  {
    match GateConfigOf(key, config, built, sources)
    case Err(e) => Err(e)
    case Ok(c) => NewGate(c)
  }

  /** The gates, built in insertion order against the gates before them. */
  function BuildGates(gd: Dict<Config>, sources: Dict<VoltageSource>): (r: Result<Dict<Gate>>)
    requires Namespaced(gd)
    ensures r.Ok? ==> |r.value| == |gd|
    ensures r.Ok? ==> forall i :: 0 <= i < |gd| ==> r.value[i].0 == gd[i].0
  {
    if gd == [] then Ok([])
    else
      match BuildGates(gd[..|gd| - 1], sources)
      case Err(e) => Err(e)
      case Ok(built) =>
        var (key, config) := gd[|gd| - 1];
        match BuildGate(key, config, built, sources)
        case Err(e) => Err(e)
        case Ok(g) => Ok(built + [(key, g)])
  }

  /** Building a prefix of the dictionary gives a prefix of the gates. */
  lemma {:induction false} BuildGatesPrefix(gd: Dict<Config>, sources: Dict<VoltageSource>, m: nat)
    requires Namespaced(gd) && m <= |gd| && BuildGates(gd, sources).Ok?
    ensures BuildGates(gd[..m], sources) == Ok(BuildGates(gd, sources).value[..m])
  {
    if m < |gd| {
      var init := gd[..|gd| - 1];
      assert init[..m] == gd[..m];
      var built := BuildGates(init, sources);
      assert built.Ok?;
      BuildGatesPrefix(init, sources, m);
      var whole := BuildGates(gd, sources).value;
      assert whole[..|built.value|] == built.value;
      assert whole[..m] == built.value[..m];
    } else {
      assert gd[..m] == gd;
      assert BuildGates(gd, sources).value[..m] == BuildGates(gd, sources).value;
    }
  }

  /** One more entry: the next gate is built against the gates so far. */
  lemma BuildGatesStep(gd: Dict<Config>, sources: Dict<VoltageSource>, i: nat)
    requires Namespaced(gd) && i < |gd| && BuildGates(gd[..i], sources).Ok?
    ensures BuildGates(gd[..i + 1], sources)
            == match BuildGate(gd[i].0, gd[i].1, BuildGates(gd[..i], sources).value, sources)
               case Err(e) => Err(e)
               case Ok(g) => Ok(BuildGates(gd[..i], sources).value + [(gd[i].0, g)])
  {
    assert gd[..i + 1][..i] == gd[..i];
  }

  /** Once a prefix of the gates fails, the whole build fails the same way. */
  lemma {:induction false} BuildGatesPrefixErr(gd: Dict<Config>, sources: Dict<VoltageSource>, m: nat)
    requires Namespaced(gd) && m <= |gd| && BuildGates(gd[..m], sources).Err?
    ensures BuildGates(gd, sources) == BuildGates(gd[..m], sources)
  {
    if m < |gd| {
      assert gd[..|gd| - 1][..m] == gd[..m];
      BuildGatesPrefixErr(gd[..|gd| - 1], sources, m);
    } else {
      assert gd[..m] == gd;
    }
  }

  /** Built gates are named after their keys, well formed, and fed only by
      earlier gates and by sources. */
  lemma {:induction false} BuildGatesOk(gd: Dict<Config>, sources: Dict<VoltageSource>)
    requires Namespaced(gd) && SourcesOk(sources)
    ensures BuildGates(gd, sources).Ok? ==> GatesOk(BuildGates(gd, sources).value, sources)
  {
    if gd != [] && BuildGates(gd, sources).Ok? {
      BuildGatesOk(gd[..|gd| - 1], sources);
      var built := BuildGates(gd[..|gd| - 1], sources).value;
      var (key, config) := gd[|gd| - 1];
      BuildGateOk(key, config, built, sources);
      GatesOkAppend(built, key, BuildGate(key, config, built, sources).value, sources);
    }
  }

  /** A gate built against `built` is named after its key, well formed, and
      fed only by gates of `built` and by sources. */
  lemma BuildGateOk(key: string, config: Config, built: Dict<Gate>, sources: Dict<VoltageSource>)
    requires "input_components" in config && IsNameList(config["input_components"])
    requires GatesOk(built, sources) && SourcesOk(sources)
    ensures BuildGate(key, config, built, sources).Ok? ==>
      var g := BuildGate(key, config, built, sources).value;
      && g.name == key && WellFormed(g)
      && forall k :: 0 <= k < |g.inputs| ==> InputBuilt(g.inputs[k], built, sources)
  {
    if BuildGate(key, config, built, sources).Ok? {
      var c := GateConfigOf(key, config, built, sources).value;
      var g := NewGate(c).value;
      var names := config["input_components"].items;
      ResolveBuilt(names, built, sources);
      var inputs := Resolve(names, built, sources);
      assert g.inputs == inputs by {
        assert ComponentList(g.inputs) == ComponentList(inputs);
        assert |g.inputs| == |inputs|;
        forall k | 0 <= k < |inputs| ensures g.inputs[k] == inputs[k] {
          assert ComponentList(g.inputs).items[k] == ComponentList(inputs).items[k];
        }
      }
      forall k | 0 <= k < |g.inputs| ensures InputBuilt(g.inputs[k], built, sources) {
        assert g.inputs[k] == inputs[k] && inputs[k] in inputs;
      }
    }
  }

  /** Appending a gate fed only by earlier gates and sources keeps GatesOk. */
  lemma GatesOkAppend(built: Dict<Gate>, key: string, g: Gate, sources: Dict<VoltageSource>)
    requires GatesOk(built, sources) && g.name == key && WellFormed(g)
    requires forall k :: 0 <= k < |g.inputs| ==> InputBuilt(g.inputs[k], built, sources)
    ensures GatesOk(built + [(key, g)], sources)
  {
    var gates := built + [(key, g)];
    forall i | 0 <= i < |gates|
      ensures gates[i].1.name == gates[i].0 && WellFormed(gates[i].1)
      ensures forall k :: 0 <= k < |gates[i].1.inputs| ==> InputBuilt(gates[i].1.inputs[k], gates[..i], sources)
    {
      if i < |built| {
        assert gates[..i] == built[..i];
      } else {
        assert gates[i].1 == g && gates[..i] == built;
      }
    }
  }

  /** The end of sequence: named after the circuit, fed by the built gate
      its input name refers to. */
  function BuildEos(circuit: string, ed: Config, gates: Dict<Gate>): Result<EndOfSequence>
    requires "input_gate" in ed && ed["input_gate"].Str?
  {
    var named := ed["name" := Str(circuit)];
    match Lookup(gates, ed["input_gate"].s)
    case None => Err(KeyError(ed["input_gate"].s))
    case Some(g) => NewEos(named["input_gate" := Comp(G(g))])
  }

  /** What a constructed circuit holds. */
  datatype Built = Built(sources: Dict<VoltageSource>, gates: Dict<Gate>, eos: EndOfSequence)

  /** The whole construction, in the order the constructor runs it. */
  function BuildCircuit(circuit: string, gd: Dict<Config>, vd: Dict<Config>, ed: Config): Result<Built> {
    match NamespaceGates(gd, circuit)
    case Err(e) => Err(e)
    case Ok(gates0) =>
      match NamespaceEos(ed, circuit)
      case Err(e) => Err(e)
      case Ok(eos0) => BuildParts(circuit, gates0, eos0, Suffixed(vd, circuit))
  }

  /** The construction after namespacing: sources, then gates, then the end
      of sequence, failing as the first failing step does. */
  function BuildParts(circuit: string, gates0: Dict<Config>, eos0: Config, vd0: Dict<Config>): Result<Built>
    requires Namespaced(gates0) && "input_gate" in eos0 && eos0["input_gate"].Str?
  {
    match BuildSources(vd0)
    case Err(e) => Err(e)
    case Ok(sources) =>
      match BuildGates(gates0, sources)
      case Err(e) => Err(e)
      case Ok(gates) =>
        match BuildEos(circuit, eos0, gates)
        case Err(e) => Err(e)
        case Ok(eos) => Ok(Built(sources, gates, eos))
  }

  /** The structure every constructed circuit has. */
  predicate WellBuilt(circuit: string, b: Built) {
    && DistinctKeys(b.sources) && SourcesOk(b.sources)
    && DistinctKeys(b.gates) && GatesOk(b.gates, b.sources)
    && |b.sources| >= 1 && |b.gates| >= 1
    && WellFormedEos(b.eos) && b.eos.name == circuit
    && (b.eos.inputGate.name, b.eos.inputGate) in b.gates
  }

  /** With no sources, the first gate resolves none of its inputs and fails
      its fan-in check, so a successful build always has a source: taking
      the first source for the measure line cannot fail. */
  lemma FirstGateNeedsSource(gd: Dict<Config>, sources: Dict<VoltageSource>)
    requires Namespaced(gd) && |gd| >= 1
    ensures BuildGates(gd, sources).Ok? ==> |sources| >= 1
  {
    if sources == [] {
      NoSourcesFails(gd);
    }
  }

  lemma {:induction false} NoSourcesFails(gd: Dict<Config>)
    requires Namespaced(gd) && |gd| >= 1
    ensures BuildGates(gd, []).Err?
  {
    if |gd| == 1 {
      var key, config := gd[0].0, gd[0].1;
      assert gd[..0] == [];
      var names := config["input_components"].items;
      ResolveNothing(names);
      var c := GateConfigOf(key, config, [], []);
      if c.Ok? {
        assert c.value["input_components"] == List([]);
      }
    } else {
      NoSourcesFails(gd[..|gd| - 1]);
    }
  }

  lemma {:induction false} ResolveNothing(names: seq<Value>)
    requires forall i :: 0 <= i < |names| ==> names[i].Str?
    ensures Resolve(names, [], []) == []
  {
    if names != [] {
      ResolveNothing(names[..|names| - 1]);
    }
  }

  /** The end of sequence of a successful build is named after the circuit
      and fed by one of the built gates. */
  lemma BuildEosOk(circuit: string, ed: Config, gates: Dict<Gate>)
    requires "input_gate" in ed && ed["input_gate"].Str?
    requires forall j :: 0 <= j < |gates| ==> gates[j].1.name == gates[j].0
    requires BuildEos(circuit, ed, gates).Ok?
    ensures var e := BuildEos(circuit, ed, gates).value;
      WellFormedEos(e) && e.name == circuit && (e.inputGate.name, e.inputGate) in gates
  {
    var g := Lookup(gates, ed["input_gate"].s).value;
    var j :| 0 <= j < |gates| && gates[j] == (ed["input_gate"].s, g);
    var named := ed["name" := Str(circuit)]["input_gate" := Comp(G(g))];
    EosAccepts(named);
    EosFields(named);
  }

  /** A successful build has the structure WellBuilt describes. */
  lemma BuildCircuitWellBuilt(circuit: string, gd: Dict<Config>, vd: Dict<Config>, ed: Config)
    requires DistinctKeys(gd) && DistinctKeys(vd)
    requires BuildCircuit(circuit, gd, vd, ed).Ok?
    ensures WellBuilt(circuit, BuildCircuit(circuit, gd, vd, ed).value)
  {
    var gates0 := NamespaceGates(gd, circuit).value;
    var eos0 := NamespaceEos(ed, circuit).value;
    SuffixedDistinct(vd, circuit);
    NamespaceGatesDistinct(gd, circuit);
    BuildPartsWellBuilt(circuit, gates0, eos0, Suffixed(vd, circuit));
  }

  lemma BuildPartsWellBuilt(circuit: string, gates0: Dict<Config>, eos0: Config, vd0: Dict<Config>)
    requires DistinctKeys(vd0) && Namespaced(gates0) && DistinctKeys(gates0)
    requires "input_gate" in eos0 && eos0["input_gate"].Str?
    requires BuildParts(circuit, gates0, eos0, vd0).Ok?
    ensures WellBuilt(circuit, BuildParts(circuit, gates0, eos0, vd0).value)
  {
    var sources := BuildSources(vd0).value;
    StepsWellBuilt(circuit, gates0, eos0, vd0, sources, BuildGates(gates0, sources).value);
  }

  lemma StepsWellBuilt(circuit: string, gates0: Dict<Config>, eos0: Config, vd0: Dict<Config>,
                       sources: Dict<VoltageSource>, gates: Dict<Gate>)
    requires DistinctKeys(vd0) && BuildSources(vd0) == Ok(sources)
    requires Namespaced(gates0) && BuildGates(gates0, sources) == Ok(gates)
    requires DistinctKeys(gates0)
    requires "input_gate" in eos0 && eos0["input_gate"].Str? && BuildEos(circuit, eos0, gates).Ok?
    ensures WellBuilt(circuit, Built(sources, gates, BuildEos(circuit, eos0, gates).value))
  {
    assert DistinctKeys(sources);
    assert DistinctKeys(gates);
    BuildGatesOk(gates0, sources);
    BuildEosOk(circuit, eos0, gates);
    FirstGateNeedsSource(gates0, sources);
  }

  /** An input name that matches neither an earlier gate nor a source is
      dropped, so a gate written with exactly its fan-in of inputs then
      fails the fan-in check: forward references are rejected. */
  lemma UnresolvedInputFails(key: string, config: Config, built: Dict<Gate>, sources: Dict<VoltageSource>, t: GateType, i: nat)
    requires "input_components" in config && IsNameList(config["input_components"])
    requires "type" in config && config["type"] == Str(TypeName(t))
    requires "k" in config && IsInt(config["k"])
    requires |config["input_components"].items| == FanIn(t)
    requires i < FanIn(t) && !Resolvable(config["input_components"].items[i].s, built, sources)
    ensures var n := |Resolve(config["input_components"].items, built, sources)|;
      n < FanIn(t) && BuildGate(key, config, built, sources) == Err(FanInMismatch(FanIn(t), n))
  {
    var names := config["input_components"].items;
    ResolveComplete(names, built, sources);
    var c := GateConfigOf(key, config, built, sources).value;
    assert ValidateGateConfig(c).None?;
    assert ParseGateType(c["type"].s) == Some(t);
  }

  /** An end-of-sequence input that names no built gate is a key error. */
  lemma UnbuiltEosInputFails(circuit: string, ed: Config, gates: Dict<Gate>)
    requires "input_gate" in ed && ed["input_gate"].Str?
    requires forall i :: 0 <= i < |gates| ==> gates[i].0 != ed["input_gate"].s
    ensures BuildEos(circuit, ed, gates) == Err(KeyError(ed["input_gate"].s))
  {
  }
}
