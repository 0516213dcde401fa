/** A voltage source: a piecewise-linear stimulus, optionally buffered by an
    inverting driver gate. */
module VoltageSources {
  import opened Wrappers
  import opened Text
  import opened Components
  import opened Gates

  /** The configuration checks, in the order they run; None when all pass. */
  function ValidateSourceConfig(config: Config): (r: Option<Error>)
    ensures r.None? ==> "name" in config && "ideal" in config && config["ideal"].Bool?
    ensures r.None? ==> config["name"].Str?
    ensures r.None? ==> !config["ideal"].b ==> "k" in config
    ensures r.None? ==> "k" in config ==> IsInt(config["k"])
  {
    if "name" !in config then Some(NotProvided("name"))
    else if "ideal" !in config then Some(NotProvided("ideal"))
    else if !Truthy(config["ideal"]) && "k" !in config then Some(NotProvided("k"))
    else if !config["ideal"].Bool? then Some(WrongType("ideal"))
    else if "k" in config && !IsInt(config["k"]) then Some(WrongType("k"))
    else if !config["name"].Str? then Some(WrongType("name"))
    else None
  }

  /** The source as its driver sees it while being built: its output node is
      still its own name. */
  function Bare(name: string): VoltageSource {
    VoltageSource(name, None, name)
  }

  /** The configuration of the inverting driver of a non-ideal source. */
  function DriverConfig(source: VoltageSource, k: Value): Config {
    map["name" := Str(source.name + "driver"), "type" := Str("1NOT"), "k" := k,
        "input_components" := List([Comp(S(source))])]
  }

  /** What construction yields: an ideal source drives its own name; a
      non-ideal one owns a 1NOT driver of the same k, fed by the bare source,
      and exposes the driver's output node. */
  function VoltageSourceOf(config: Config): (r: Result<VoltageSource>)
    ensures r.Ok? ==> "name" in config && config["name"] == Str(r.value.name) && WellFormedSource(r.value)
  {
    if "name" !in config then Err(KeyError("name"))
    else match ValidateSourceConfig(config)
      case Some(e) => Err(e)
      case None =>
        var name := config["name"].s;
        if config["ideal"].b then Ok(Bare(name))
        else
          var driver := Gate(Not1, name + "driver", AsInt(config["k"]), [S(Bare(name))]);
          assert |GateOutput(driver)| > |name|;
          Ok(VoltageSource(name, Some(driver), GateOutput(driver)))
  }

  /** VoltageSource.__init__: the name is read before validation, the output
      node is set to the name, the driver is built from the source in that
      state, and only then is the output node rebound to the driver's. */
  method NewVoltageSource(config: Config) returns (r: Result<VoltageSource>)
    ensures r == VoltageSourceOf(config)
  {
    if "name" !in config {
      return Err(KeyError("name"));
    }
    var check := ValidateSourceConfig(config);
    if check.Some? {
      return Err(check.value);
    }
    var name := config["name"].s;
    var outputNode := name;
    var driver: Option<Gate> := None;
    if !Truthy(config["ideal"]) {
      var self := VoltageSource(name, None, outputNode);
      var built := NewGate(DriverConfig(self, config["k"]));
      assert ValidateGateConfig(DriverConfig(self, config["k"])).None?;
      var g := built.value;
      assert ComponentList(g.inputs) == List([Comp(S(self))]);
      assert g.inputs == [S(self)];
      assert TypeName(g.gtype) == "1NOT";
      assert g == Gate(Not1, name + "driver", AsInt(config["k"]), [S(Bare(name))]);
      driver := Some(g);
      outputNode := GateOutput(built.value);
    }
    return Ok(VoltageSource(name, driver, outputNode));
  }

  /** A constructed source: a driver exactly when the output node moved off
      the name, and a driver whose input count matches its type. */
  predicate WellFormedSource(s: VoltageSource) {
    && (s.driver.None? <==> s.outputNode == s.name)
    && (s.driver.Some? ==> WellFormed(s.driver.value))
  }

  /** The stimulus line: `<NAME> <name> 0 pwl(...)` with a fixed waveform. */
  function PwlLine(name: string): string {
    Upper(name) + " " + name + " 0 pwl(0 0.7 0.9999us 0.7 1us 0 2us 0)\n"
  }

  /** The netlist fragment: the stimulus line, then a blank line for an
      ideal source or the driver's fragment for a non-ideal one. */
  function SourceNetlist(s: VoltageSource): string
    requires WellFormedSource(s)
  {
    if s.outputNode == s.name then PwlLine(s.name) + "\n"
    else PwlLine(s.name) + Render(s.driver.value)
  }

  /** An independent statement of what construction accepts. */
  predicate GoodSourceConfig(config: Config) {
    && "name" in config && config["name"].Str?
    && "ideal" in config && config["ideal"].Bool?
    && (!config["ideal"].b ==> "k" in config)
    && ("k" in config ==> IsInt(config["k"]))
  }

  /** Construction succeeds exactly on GoodSourceConfig. */
  lemma SourceAccepts(config: Config)
    ensures VoltageSourceOf(config).Ok? <==> GoodSourceConfig(config)
  {
  }

  /** An ideal source drives its own name, and its fragment is the stimulus
      line and a blank line. */
  lemma IdealSource(config: Config)
    requires GoodSourceConfig(config) && config["ideal"].b
    ensures var s := VoltageSourceOf(config).value;
      s.outputNode == s.name == config["name"].s && s.driver.None?
      && SourceNetlist(s) == PwlLine(s.name) + "\n"
  {
  }

  /** A non-ideal source exposes `out_<name>driver`; its driver is a 1NOT of
      the configured k whose single input node is the raw source name, and
      its fragment is the stimulus line followed by the driver's fragment. */
  lemma NonIdealSource(config: Config)
    requires GoodSourceConfig(config) && !config["ideal"].b
    ensures var s := VoltageSourceOf(config).value;
      && s.driver.Some?
      && s.driver.value.gtype == Not1
      && s.driver.value.name == config["name"].s + "driver"
      && s.driver.value.k == AsInt(config["k"])
      && |s.driver.value.inputs| == 1
      && OutputNode(s.driver.value.inputs[0]) == s.name
      && s.outputNode == "out_" + s.name + "driver"
      && WellFormedSource(s)
      && SourceNetlist(s) == PwlLine(s.name) + Render(s.driver.value)
  {
    var s := VoltageSourceOf(config).value;
    assert |s.outputNode| > |s.name|;
  }

  /** Without a name the source fails on the lookup of the name, before
      validation; the validator's own missing-name message is never reached. */
  lemma NameReadFirst(config: Config)
    requires "name" !in config
    ensures VoltageSourceOf(config) == Err(KeyError("name"))
  {
  }

  /** The driver renders two transistors driven by the raw source name. */
  lemma DriverInput(config: Config)
    requires GoodSourceConfig(config) && !config["ideal"].b
    ensures var d := VoltageSourceOf(config).value.driver.value;
      WellFormed(d) && |Transistors(d)| == 2
      && Transistors(d)[0].gate == config["name"].s && Transistors(d)[1].gate == config["name"].s
  {
    var d := VoltageSourceOf(config).value.driver.value;
    InputTerminals(d);
  }
}
