# CMOS gate chains as netlists and graphs: a Dafny model

This project models the preprocessing package of a generator that turns
chains of CMOS gates into two things: SPICE netlist text, and the graph
matrices used for learning, namely an adjacency list or adjacency matrix
plus a feature matrix. The model covers the circuit layer, the chain-wiring
graph builder and the multi-circuit simulation netlist. The circuit layer
has four parts:

- gates (2NAND, 1NOT, 2NOR, 2AND, 2OR);
- voltage sources, optionally with a 1NOT driver;
- the end-of-sequence load;
- the circuit that namespaces, builds, numbers and renders them.

The modules follow the package:

- `Wrappers`, `Text`, `Components`: the Option and Result types, Python's
  error kinds and decimal text, and the component datatypes. A Python
  config dict is a `map<string, Value>` and an insertion-ordered dict is a
  `seq<(string, T)>`. An input component is `G(Gate)` or `S(VoltageSource)`,
  and its output node is `out_<name>` for a gate.
- `Gates`, `VoltageSources`, `EndOfSequences`: validation (the order in
  which errors are reported), construction, and the transistor template of
  each gate type with its widths.
- `CircuitSpec`: the construction of a circuit as a function. It
  namespaces, then builds sources, then gates (an input resolves only
  against what is already built), then the end of sequence.
- `Numbering`: gate numbers, the edge list, and the matrix and feature
  entries it implies.
- `Circuits`: the class `Circuit`. Its methods fill the gate and source
  dictionaries in loops, accumulate the netlist, and fill the matrices in
  place. Each method is proved against the functions above.
- `Sorting`: the sort of the adjacency list by source number.
- `Chains`: the chain `Graph.__make_circuit` wires, with the random draws as
  parameters, and the closed form of its graph.
- `Graphs`: the class `Graph`.
- `Simulations`: the class `Simulation`, which puts several circuits into
  one netlist.

## Model

| member | source | states |
|---|---|---|
| Components.ParseGateType | preprocessing/package/circuit/gate.py:23 | a type name is accepted exactly when it is the name of one of the five gate types |
| Components.TypeIndex | preprocessing/package/circuit/circuit.py:62 | the index is the first position of the type in GATE_CHOICES |
| Text.ParseInt | preprocessing/package/circuit/circuit.py:102 | a non-empty run of digits parses to its decimal value; nothing empty parses |
| Text.ParseNatStr | preprocessing/package/circuit/circuit.py:101-102 | the decimal text of n parses back to n |
| Text.ParseIntStr | preprocessing/package/circuit/circuit.py:101-102 | the text of any integer, sign included, parses back to it |
| Text.NatStrInjective | preprocessing/package/simulation/graph.py:62 | different numbers give different names `gate<n>` |
| Text.Upper | preprocessing/package/circuit/voltagesource.py:60 | same length; each lower-case ASCII letter becomes the capital 32 code points below it, every other character is kept |
| Text.UpperAlphabet | preprocessing/package/circuit/voltagesource.py:60 | the 26 lower-case letters become the 26 capitals, letter for letter |
| Text.UpperIdempotent | preprocessing/package/circuit/voltagesource.py:60 | upper-casing an upper-cased name changes nothing |
| Text.ConcatAppend | preprocessing/package/simulation/simulation.py:43-44 | concatenating two lists of fragments is concatenating their texts |
| Gates.ValidateGateConfig | preprocessing/package/circuit/gate.py:98-127 | no error only when all four keys are present, the type is one of the five, inputs is a list, name a string and k an int |
| Gates.NewGate | preprocessing/package/circuit/gate.py:25-46 | a validation error is returned as is; a built gate is well formed and holds the configured name, type, k and inputs |
| Gates.MissingKeyFirst | preprocessing/package/circuit/gate.py:111-118 | a missing key is reported first, and it is the first missing one in the order type, input_components, name, k |
| Gates.InvalidTypeRejected | preprocessing/package/circuit/gate.py:119-120 | with all keys present, a type outside the five fails (a list type fails as unhashable) before the other fields are checked |
| Gates.FanInEnforced | preprocessing/package/circuit/gate.py:38-39 | a valid config whose input count differs from the type's leading digit fails with that count |
| Gates.NewGateAccepts | preprocessing/package/circuit/gate.py:25-46 | construction succeeds exactly on configs that are well typed and whose input count matches the fan-in |
| Gates.TransistorCount | preprocessing/package/circuit/gate.py:55-85 | two transistors per input plus two for AND and OR (4, 2, 4, 6, 6), half of them pmos |
| Gates.Transistors | preprocessing/package/circuit/gate.py:55-85 | definition: the template of each type, with drain, gate, source, bulk, channel model and width of every transistor in the order of the five branches; its count, widths and input wiring are stated by `Gates.TransistorCount`, `Gates.Widths` and `Gates.InputTerminals` |
| Gates.Widths | preprocessing/package/circuit/gate.py:56-85 | every nfin is k times the coefficient of its type and channel: NAND 3/4, NOT 3/2, NOR 6/2, output inverter 3/2 |
| Gates.InputTerminals | preprocessing/package/circuit/gate.py:56-85 | input j drives transistor j and transistor j + fan-in; the output inverter is driven by the intermediate node |
| Gates.StagedTemplate | preprocessing/package/circuit/gate.py:71-85 | AND (OR) is the NAND (NOR) template retargeted to `out_<name>intermediate`, then an inverter with nmos 2k and pmos 3k |
| Gates.RenderLineCount | preprocessing/package/circuit/gate.py:48-85 | the fragment has one line per transistor plus the closing blank line |
| Gates.RenderEnds | preprocessing/package/circuit/gate.py:48-85 | the fragment starts with `M<name>m0 ` and ends with a blank line |
| Gates.LineStart | preprocessing/package/circuit/gate.py:55-85 | line i starts with `M<name>m<i> ` |
| Gates.Line | preprocessing/package/circuit/gate.py:56-59 | definition: `M<name>m<i> <drain> <gate> <source> <bulk> <model> nfin = <width>` and a newline; its opening is stated by `Gates.LineStart` |
| Gates.Render | preprocessing/package/circuit/gate.py:48-85 | definition: the template's lines in order, then a blank line; stated by `Gates.RenderLineCount` and `Gates.RenderEnds` |
| VoltageSources.ValidateSourceConfig | preprocessing/package/circuit/voltagesource.py:73-100 | no error only when name is a string, ideal a bool, k present when not ideal and an int when present |
| VoltageSources.VoltageSourceOf | preprocessing/package/circuit/voltagesource.py:30-50 | a built source carries the configured name and is well formed |
| VoltageSources.NewVoltageSource | preprocessing/package/circuit/voltagesource.py:30-50 | the constructor, with its rebinding of the output node, builds the source VoltageSourceOf describes |
| VoltageSources.SourceAccepts | preprocessing/package/circuit/voltagesource.py:73-100 | construction succeeds exactly on well-typed configs |
| VoltageSources.NameReadFirst | preprocessing/package/circuit/voltagesource.py:40-41 | without a name the source fails with a key error on the name, never with the validator's message |
| VoltageSources.IdealSource | preprocessing/package/circuit/voltagesource.py:44-60 | an ideal source drives its own name, has no driver, and renders as the pwl line and a blank line |
| VoltageSources.NonIdealSource | preprocessing/package/circuit/voltagesource.py:44-62 | a non-ideal source has a 1NOT driver `<name>driver` of the configured k fed by the raw name, exposes `out_<name>driver`, and renders as the pwl line and the driver's fragment |
| VoltageSources.DriverInput | preprocessing/package/circuit/voltagesource.py:45-48 | both driver transistors are gated by the raw source name |
| VoltageSources.PwlLine | preprocessing/package/circuit/voltagesource.py:60 | definition: the upper-cased name, the name, ground and the fixed pwl stimulus, on one line |
| VoltageSources.SourceNetlist | preprocessing/package/circuit/voltagesource.py:51-62 | definition: the pwl line followed by a blank line when the output node is the name, otherwise by the driver's fragment; stated by `VoltageSources.IdealSource` and `VoltageSources.NonIdealSource` |
| EndOfSequences.CheckTable | preprocessing/package/circuit/eos.py:64-72 | the table passes exactly when every key is present with its type |
| EndOfSequences.TableFirstFailure | preprocessing/package/circuit/eos.py:64-72 | the first failing entry decides the error: missing means not provided, mistyped means must be |
| EndOfSequences.EosFirstFailure | preprocessing/package/circuit/eos.py:57-72 | keys are checked in the order k, input_gate, capacitance, name |
| EndOfSequences.NewEos | preprocessing/package/circuit/eos.py:5-27 | a built end of sequence is well formed |
| EndOfSequences.EosAccepts | preprocessing/package/circuit/eos.py:47-74 | construction succeeds exactly on well-typed configs |
| EndOfSequences.EosFields | preprocessing/package/circuit/eos.py:21-26 | the fields equal the config values and the internal gate is a 1NOT `<name>EOS` of the same k fed by the input gate |
| EndOfSequences.EosNetlistShape | preprocessing/package/circuit/eos.py:29-36 | the fragment is the internal gate's fragment and then the capacitor line on `out_<name>EOS` |
| EndOfSequences.EosNetlist | preprocessing/package/circuit/eos.py:29-36 | definition: the internal inverter's fragment, then the capacitor line; stated by `EndOfSequences.EosNetlistShape` |
| EndOfSequences.CapacitorLine | preprocessing/package/circuit/eos.py:36 | definition: `C<name>eos <node> 0 <capacitance>f` and a newline |
| CircuitSpec.Lookup | preprocessing/package/circuit/circuit.py:191-194 | a found value is stored under the key; nothing found means no entry has the key |
| CircuitSpec.LookupEntry | preprocessing/package/circuit/circuit.py:191-194 | with distinct keys every entry is found under its own key |
| CircuitSpec.SuffixedDistinct | preprocessing/package/circuit/circuit.py:70-71 | appending the circuit name to every key keeps keys distinct |
| CircuitSpec.NamespaceGates | preprocessing/package/circuit/circuit.py:74-75 | each key gets the circuit name appended and each gate's inputs become a list of names |
| CircuitSpec.NamespacedEntry | preprocessing/package/circuit/circuit.py:74-75 | after namespacing, entry i's inputs are its old input names with the circuit name appended |
| CircuitSpec.NamespaceFirstFailure | preprocessing/package/circuit/circuit.py:74-75 | the first entry without a list of string inputs decides the error |
| CircuitSpec.NamespaceGatesDistinct | preprocessing/package/circuit/circuit.py:71-75 | namespacing keeps gate keys distinct |
| CircuitSpec.NamespaceEos | preprocessing/package/circuit/circuit.py:77-79 | on success the EOS input_gate is a string and is the only field changed, by the circuit name appended |
| CircuitSpec.BuildSources | preprocessing/package/circuit/circuit.py:170-179 | one well-formed source per entry, in order, named by its key |
| CircuitSpec.Resolve | preprocessing/package/circuit/circuit.py:190-194 | names matching neither a built gate nor a source are skipped, so the inputs are never more than the names |
| CircuitSpec.ResolveComplete | preprocessing/package/circuit/circuit.py:190-194 | when every name resolves, nothing is skipped |
| CircuitSpec.ResolveBuilt | preprocessing/package/circuit/circuit.py:190-194 | every resolved input is a gate built earlier or a source |
| CircuitSpec.BuildGates | preprocessing/package/circuit/circuit.py:181-196 | one gate per entry, in order, under the same key |
| CircuitSpec.BuildGatesOk | preprocessing/package/circuit/circuit.py:181-196 | every built gate is well formed, named by its key, and fed only by earlier gates or sources |
| CircuitSpec.FirstGateNeedsSource | preprocessing/package/circuit/circuit.py:188-196 | a circuit with gates builds only if it has at least one source |
| CircuitSpec.NoSourcesFails | preprocessing/package/circuit/circuit.py:188-196 | without sources the first gate cannot get its inputs, so building fails |
| CircuitSpec.UnresolvedInputFails | preprocessing/package/circuit/circuit.py:190-196 | an input naming nothing built yet is skipped, so the gate fails its fan-in check |
| CircuitSpec.UnbuiltEosInputFails | preprocessing/package/circuit/circuit.py:206 | an EOS input gate that is not a built gate fails with a key error |
| CircuitSpec.BuildEosOk | preprocessing/package/circuit/circuit.py:198-207 | the end of sequence is named after the circuit and fed by one of the built gates |
| CircuitSpec.GateConfigOf | preprocessing/package/circuit/circuit.py:189-195 | definition: a key error on a missing type, then on a missing k; otherwise the config named by its key with its inputs resolved |
| CircuitSpec.BuildGate | preprocessing/package/circuit/circuit.py:188-196 | definition: the resolved config handed to gate construction; stated by `CircuitSpec.BuildGatesOk` |
| CircuitSpec.BuildEos | preprocessing/package/circuit/circuit.py:198-207 | definition: a key error when the input gate was not built, otherwise the end of sequence named after the circuit; stated by `CircuitSpec.BuildEosOk` and `CircuitSpec.UnbuiltEosInputFails` |
| CircuitSpec.BuildParts | preprocessing/package/circuit/circuit.py:81-83 | definition: sources, then gates, then the end of sequence, the first failure deciding the result |
| CircuitSpec.BuildCircuit | preprocessing/package/circuit/circuit.py:64-84 | definition: namespacing, then the three steps; every success is well built by `CircuitSpec.BuildCircuitWellBuilt` |
| CircuitSpec.BuildCircuitWellBuilt | preprocessing/package/circuit/circuit.py:64-84 | a built circuit has distinct, well-formed sources and gates, at least one of each, and an EOS fed by one of its gates |
| Numbering.GateNumber | preprocessing/package/circuit/circuit.py:86-104 | fails exactly when the name does not end in the circuit name or a `gate` prefix is followed by something that is not a number |
| Numbering.GateNumberOfGateName | preprocessing/package/circuit/circuit.py:101-102 | `gate<n><circuit>` is numbered n - 1 |
| Numbering.GateNumberOfOtherName | preprocessing/package/circuit/circuit.py:103-104 | a name in the circuit without the `gate` prefix is numbered -1 |
| Numbering.GateNumberOfForeignName | preprocessing/package/circuit/circuit.py:96-99 | a name not ending in the circuit name is an error |
| Numbering.InputEdges | preprocessing/package/circuit/circuit.py:142-145 | definition: one edge (input number, gate number) per input whose number and the gate's number are both not -1, the first numbering error propagated; stated by `Numbering.InputEdgesNumbered` |
| Numbering.EdgeList | preprocessing/package/circuit/circuit.py:139-145 | definition: every gate's input edges in gate order; stated by `Numbering.EdgesOriented` |
| Numbering.InputEdgesNumbered | preprocessing/package/circuit/circuit.py:141-145 | every collected edge joins two numbered components |
| Numbering.EdgesOriented | preprocessing/package/circuit/circuit.py:139-145 | with conforming numbers every edge joins two different gates in range and never appears reversed |
| Numbering.NumInjective | preprocessing/package/circuit/circuit.py:86-104 | under conforming numbering two gates share a number only if they are the same gate |
| Numbering.MatrixAgreesWithList | preprocessing/package/circuit/circuit.py:145-166 | the matrix entry is antisymmetric and in {-1, 0, 1}, zero on the diagonal, and (s, d) is an edge exactly when M[s][d] is 1 and M[d][s] is -1 |
| Numbering.MatrixEntry | preprocessing/package/circuit/circuit.py:164-166 | definition: 1 for an edge (s, d), -1 for its reverse, 0 otherwise; stated by `Numbering.MatrixAgreesWithList` |
| Numbering.FeatureRow | preprocessing/package/circuit/circuit.py:124-129 | a feature row has five entries |
| Sorting.SortByFirst | preprocessing/package/circuit/circuit.py:146-147 | the result is sorted by source number and is a permutation of the input |
| Sorting.PermutationNoDuplicates | preprocessing/package/circuit/circuit.py:139-147 | a permutation of a duplicate-free list is duplicate free |
| Sorting.SortedUnique | preprocessing/package/circuit/circuit.py:146-147 | two sorted permutations of a list whose source numbers are all different are equal |
| Circuits.MeasureEnding | preprocessing/package/circuit/circuit.py:223-228 | the measure line names the circuit and its trigger, and ends `FALL = 1` exactly when inverting and `RISE = 1` exactly when not |
| Circuits.MeasureLine | preprocessing/package/circuit/circuit.py:223-228 | definition: the `.MEASURE` line from the first source's node to the end of sequence's input; its head and edge are stated by `Circuits.MeasureEnding` |
| Circuits.Circuit.Empty | preprocessing/package/circuit/circuit.py:64-69 | the fields as construction first sets them: no gates, sources or end of sequence, empty netlist |
| Circuits.Circuit.New | preprocessing/package/circuit/circuit.py:64-84 | construction fails exactly as the build specification does; otherwise the circuit holds the built parts and its netlist is their text |
| Circuits.Circuit.Construct | preprocessing/package/circuit/circuit.py:64-83 | the namespacing and the three generation steps succeed or fail together with the build specification |
| Circuits.Circuit.Populate | preprocessing/package/circuit/circuit.py:81-83 | sources, gates and end of sequence are generated in order, and the first failing step decides the error |
| Circuits.Circuit.GenerateVoltageSources | preprocessing/package/circuit/circuit.py:170-179 | the sources filled in the loop are those the build specification gives, or the same error |
| Circuits.Circuit.GenerateGates | preprocessing/package/circuit/circuit.py:181-196 | the gates filled in the loop are those the build specification gives, or the same error |
| Circuits.Circuit.GenerateEos | preprocessing/package/circuit/circuit.py:198-207 | the end of sequence is the one the build specification gives, or the same error |
| Circuits.Circuit.ReturnNetlist | preprocessing/package/circuit/circuit.py:209-231 | the component text (sources, gates, EOS in order) and the measure line of the circuit |
| Circuits.Circuit.NetlistText | preprocessing/package/circuit/circuit.py:234-249 | definition: header, component text, supply, analysis commands, measure line and end, in that order; a one-circuit simulation yields the same text by `Simulations.SingleCircuit` |
| Circuits.Circuit.GenerateNetlist | preprocessing/package/circuit/circuit.py:234-249 | the netlist is header, components, supply, analysis, measure line and end; generating it again leaves it the same |
| Circuits.Circuit.Repr | preprocessing/package/circuit/circuit.py:251-252 | regenerating gives back exactly the stored netlist |
| Circuits.Circuit.MakeAdjacencyList | preprocessing/package/circuit/circuit.py:132-149 | the list is sorted by source, has no duplicates, and holds exactly the input-to-gate edges; a foreign name gives its error |
| Circuits.Circuit.MakeAdjacencyMatrix | preprocessing/package/circuit/circuit.py:151-168 | an N x N matrix whose every entry is the one the edge list implies (see MatrixAgreesWithList) |
| Circuits.Circuit.MakeFeatureMatrix | preprocessing/package/circuit/circuit.py:106-130 | an N x 5 matrix in which gate g's row sits at g's number |
| Circuits.NamespaceGateDict | preprocessing/package/circuit/circuit.py:74-75 | the loop that renames inputs computes NamespaceGates |
| Circuits.ResolveNames | preprocessing/package/circuit/circuit.py:190-194 | the loop that collects inputs computes Resolve |
| Circuits.CollectEdges | preprocessing/package/circuit/circuit.py:139-145 | the set built in the loop is duplicate free and holds exactly the edges of the edge list |
| Circuits.CollectInputEdges | preprocessing/package/circuit/circuit.py:142-145 | one gate's inputs add exactly their edges to the set found so far |
| Circuits.SourceFragments | preprocessing/package/circuit/circuit.py:217-218 | the loop appends every source's fragment in order |
| Circuits.GateFragments | preprocessing/package/circuit/circuit.py:219-220 | the loop appends every gate's fragment in order |
| Circuits.FillFeatures | preprocessing/package/circuit/circuit.py:120-129 | the zeroed matrix ends up with every gate's row at its number |
| Circuits.FillAdjacency | preprocessing/package/circuit/circuit.py:158-166 | the zeroed matrix ends up holding, for every pair, the entry the edge list implies |
| Circuits.MarkInputs | preprocessing/package/circuit/circuit.py:162-166 | one gate's inputs add their edges to the matrix and keep it in step with the edges seen |
| Chains.InvertingCountAppend | preprocessing/package/simulation/graph.py:73 | the count of inverting gates adds up over concatenation |
| Chains.InvertingCount | preprocessing/package/simulation/graph.py:73 | the number of NOT, NAND and NOR gates, never more than the gates; adds over concatenation by `Chains.InvertingCountAppend` |
| Chains.ChainInverting | preprocessing/package/simulation/graph.py:74 | definition: an odd count of inverting gates; how one more gate flips it is stated by `Chains.InvertingExtend` |
| Chains.InvertingExtend | preprocessing/package/simulation/graph.py:73-74 | appending a gate flips the circuit's inversion exactly when that gate inverts |
| Chains.ChainKeysDistinct | preprocessing/package/simulation/graph.py:61-67 | the gate keys `gate1..gaten` and driver keys `v1..vm` are distinct, before and after namespacing |
| Chains.NamespaceChain | preprocessing/package/circuit/circuit.py:70-79 | namespacing the chain's gates renames every input `gate<i>` or `v<j>` by the circuit name |
| Chains.AllChainSources | preprocessing/package/circuit/circuit.py:170-179 | the chain's drivers build into non-ideal sources `v<j><circuit>` of the drawn sizes |
| Chains.AllChainGates | preprocessing/package/circuit/circuit.py:181-196 | gate 1 is fed by all drivers and gate i + 1 by fan-in copies of gate i, all of which resolve |
| Chains.BuildChainEos | preprocessing/package/simulation/graph.py:50-56 | the end of sequence targets the last gate with capacitance 10 and the drawn k |
| Chains.ChainInputNames | preprocessing/package/simulation/graph.py:62 | the drivers for the first gate and fan-in copies of `gate<i>` for gate i + 1: as many names as the gate's fan-in |
| Chains.ChainGateDict | preprocessing/package/simulation/graph.py:61-63 | `gate1` .. `gate<n>` with their types, sizings and input names, one per drawn type; what they build is stated by `Chains.AllChainGates` |
| Chains.DriverDict | preprocessing/package/simulation/graph.py:65-67 | `v1` .. `v<m>`, each non-ideal with its drawn sizing, one per size; what they build is stated by `Chains.AllChainSources` |
| Chains.EosDict | preprocessing/package/simulation/graph.py:50-56 | definition: the drawn k, the last gate as input and capacitance 10; what it builds is stated by `Chains.BuildChainEos` |
| Chains.ChainBuilds | preprocessing/package/simulation/graph.py:61-77 | the chain's three dicts always build, into the chain's sources, gates and end of sequence |
| Chains.ChainNumbered | preprocessing/package/circuit/circuit.py:86-104 | gate i + 1 of the chain is numbered i and every driver -1, the conforming numbering |
| Chains.ChainEdges | preprocessing/package/circuit/circuit.py:139-145 | the edges of a chain of n gates are exactly (i, i + 1): repeated inputs collapse and drivers drop out |
| Chains.AdjacencyListIsPath | preprocessing/package/circuit/circuit.py:146-147 | the sorted duplicate-free edge list of a chain is exactly [(0,1), ..., (n-2,n-1)] |
| Chains.ChainMatrixEntry | preprocessing/package/circuit/circuit.py:160-166 | the chain's matrix holds 1 from each gate to the next, -1 back and 0 elsewhere |
| Chains.ChainFeatureRow | preprocessing/package/circuit/circuit.py:123-129 | row i of a chain is [i, type index, first gate's k, EOS k, its own k] |
| Chains.IdealSameGraph | preprocessing/package/simulation/graph.py:61-78 | the drawn and idealized chains have the same keys, types and edges, and differ only in sizings |
| Graphs.Transpose | preprocessing/package/simulation/graph.py:28 | row 0 holds every edge's source and row 1 its target, in order |
| Graphs.TransposedPath | preprocessing/package/simulation/graph.py:28 | the transposed chain list is [0..n-2] above [1..n-1] |
| Graphs.MakeGateDicts | preprocessing/package/simulation/graph.py:61-63 | both gate dicts are filled with the chain wiring, one with the drawn sizes and one with the idealized weights |
| Graphs.MakeDriverDicts | preprocessing/package/simulation/graph.py:65-67 | both driver dicts hold the same non-ideal drivers `v1..vm` of the drawn sizes |
| Graphs.NewChainCircuit | preprocessing/package/simulation/graph.py:77 | building a circuit from the chain's dicts cannot fail, and the circuit holds the chain |
| Graphs.NewChainCircuits | preprocessing/package/simulation/graph.py:77-78 | two distinct circuits, holding the drawn and the idealized chain |
| Graphs.Graph.constructor | preprocessing/package/simulation/graph.py:41-80 | the draws are kept, the inversion is the parity of inverting gates, and both circuits hold their chain |
| Graphs.Graph.MakeAdjacencyListAndFeatureMatrix | preprocessing/package/simulation/graph.py:27-28 | the transposed list is the path through the chain and row i of the features is [i, type index, first k, EOS k, own k] |
| Graphs.Graph.MakeGraphMatrices | preprocessing/package/simulation/graph.py:30-31 | the matrix holds 1 from each gate to the next, -1 back and 0 elsewhere, with the same feature rows |
| Graphs.Graph.FeatureMatrix | preprocessing/package/circuit/circuit.py:106-130 | row i of the drawn circuit's features is [i, type index, first k, EOS k, own k] |
| Simulations.ComponentParts | preprocessing/package/simulation/simulation.py:43-44 | one fragment per circuit, in list order, each being that circuit's component text |
| Simulations.SimulationText | preprocessing/package/simulation/simulation.py:41-52 | definition: header, every circuit's components, supply, analysis, every measure line, end; stated by `Simulations.SingleCircuit`, `Simulations.NoCircuits` and `Simulations.TextsAppend` |
| Simulations.MeasureLines | preprocessing/package/simulation/simulation.py:48-49 | one measure line per circuit, in list order |
| Simulations.MeasureLineOf | preprocessing/package/simulation/simulation.py:48-49 | measure line i names circuit i and its first driver's output, and ends `FALL = 1` exactly when circuit i inverts |
| Simulations.SingleCircuit | preprocessing/package/simulation/simulation.py:41-50 | a one-circuit simulation's netlist is that circuit's own netlist |
| Simulations.NoCircuits | preprocessing/package/simulation/simulation.py:41-50 | without circuits only header, supply, analysis and end remain |
| Simulations.TextsAppend | preprocessing/package/simulation/simulation.py:43-49 | simulating two lists of circuits one after the other puts both sets of components in order, then both sets of measure lines in order |
| Simulations.Simulation.constructor | preprocessing/package/simulation/simulation.py:17-26 | the simulation keeps its name and the netlist of the circuits as they are when it is built |
| Simulations.Simulation.GenerateNetlist | preprocessing/package/simulation/simulation.py:31-52 | the text is header, all components, supply, analysis, all measure lines and end |
| Simulations.Simulation.AppendComponents | preprocessing/package/simulation/simulation.py:43-44 | the first loop appends every circuit's components in list order |
| Simulations.Simulation.AppendMeasures | preprocessing/package/simulation/simulation.py:48-49 | the second loop appends every circuit's measure line in list order |
| Simulations.Simulation.Repr | preprocessing/package/simulation/simulation.py:54-61 | the representation is the stored netlist |

## Left out

- Exception messages: the model reports which check failed and on which key (`Error`), not the text Python would print.
- `int()` in gate numbering accepts an optional sign and ASCII digits only; surrounding whitespace, underscores and non-ASCII digits are not modelled.
- `str.upper()` on source names is ASCII-only (`Text.Upper`).
- Capacitance is a number `Value` and is written as decimal text; Python float formatting is not modelled.
- `Circuits.Circuit.MakeAdjacencyMatrix`: requires the conforming numbering (gates numbered 0..N-1 without repetition, sources -1); numpy's negative or out-of-range indexing for other names is not modelled.
- `Circuits.Circuit.MakeFeatureMatrix`: requires the same conforming numbering; the source would write a gate numbered -1 into the last row via numpy's negative indexing.
- `Circuits.Circuit.MakeFeatureMatrix`: the matrix is an `array2<int>` holding each sizing exactly; the source's `np.zeros` makes a float64 array, so a sizing `k` with |k| > 2^53 would be stored rounded there. The same holds for the feature matrices of `Graphs.Graph.MakeAdjacencyListAndFeatureMatrix`, `Graphs.Graph.MakeGraphMatrices` and `Graphs.Graph.FeatureMatrix`.
- `Circuits.Circuit.MakeAdjacencyMatrix`: the matrix is an `array2<int>` rather than float64; its entries are -1, 0 and 1, which float64 holds exactly.
- `Circuits.Circuit.New`: `inverting` is a required `bool`; the constructor's default `False` and its truthiness test on an arbitrary value are not modelled, so callers pass the truth value itself.
- File output: `save_circuit_to_file`, `Simulation.save` and the `save_*` methods of `Graph` with `np.savez` are not modelled.
- Randomness: `np.random.randint` and `np.random.choice` in `Graph.__init__`, `__make_circuit` and `idealized_weights` become constructor parameters. `idealized_weights` is therefore just the `weights` parameter. `randint`'s error on an empty range becomes the constructor's requires on the draws.
- `app.py`, the HTTP front end, is not part of this model.
- Mutation of the caller's dictionaries: `Circuit.__init__` renames inputs and the EOS input gate, and the generation steps write `name` and `input_gate`, all in the caller's dicts. The model builds from copies, so aliasing between the caller and the circuit is not captured.
- The stored copies `voltage_dict`, `gate_dict`, `eos_dict` and `input_config` are not fields of the model; nothing in the core reads them again.
- A non-ideal source's driver holds a snapshot of the source taken before its output node is rebound. The stored netlist text is the same as the source's, but the driver's own `__repr__` after the rebinding, which the core never calls, would differ.
- Iteration order of Python's set in `make_adjacency_list`: the model collects edges in gate order; only the sorted result is specified, and ties among equal source numbers are left unconstrained, as in the source.
- `Graph.__repr__`, which prints the circuit's netlist, is not modelled separately; `Circuits.Circuit.Repr` covers the text.
- `Gate.output_nodes` is unused by the core and is not modelled.
- `Graphs.Graph.constructor`: the stored circuits are stated to hold the chain's sources, gates and end of sequence; that each one's netlist was generated (`Circuits.Circuit.New` ensures it) is not carried into the graph's invariant.
- `Simulations.Simulation.GenerateNetlist`: accumulates in a local string rather than in the `netlist` field, which the constructor then overwrites with the same text.
- `Simulations.MeasureLines`: the number of `.MEASURE` lines is stated as one line per circuit (each starting `.MEASURE`, by `Simulations.MeasureLineOf`), not as a count of occurrences in the whole text.
- Loops are split into helper methods (`AppendComponents`, `AppendMeasures`, `FillFeatures`, `FillAdjacency`, `MarkInputs` and the like); each is one loop of the source.
