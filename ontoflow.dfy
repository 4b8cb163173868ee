/** `parse_ontoflow` (ontoconv/ontoflow.py): builds the node list of a
    workflow description, then walks it in id order and emits, for every step
    node, a data pipeline step followed by a calculation step, and after the
    last step node one final data pipeline step for its outputs.

    The knowledge base is reached through two parameters, either of which
    may raise: `generate` stands for `generate_ontoflow_pipeline` (the node
    list with the ids a pipeline is generated for, and whether it is the
    final one, whose results go to the target knowledge base), and `load`
    for `load_simulation_resource` (the resource documented for a node's
    IRI). */
module Ontoflow {
  import opened Text
  import opened PyData
  import opened Workflow
  import opened Chain

  /** `generate_ontoflow_pipeline(kb, nodes, final)`: the nodes are given as
      ids into the whole node list, so that their own edges can be followed. */
  type Generator = (seq<Node>, seq<nat>, bool) -> Result<Value>

  /** `load_simulation_resource(kb, iri)`. */
  type Loader = string -> Result<Value>

  /** `f"pipeline_{istep}.yaml"`. */
  function PipelineFile(i: nat): string
  {
    "pipeline_" + NatToString(i) + ".yaml"
  }

  const FinalPipelineFile: string := "pipeline_final.yaml"

  /** Pipeline file names never clash: each step's number is its own, and no
      number spells `final`. */
  lemma PipelineFilesDistinct(i: nat, j: nat)
    ensures PipelineFile(i) == PipelineFile(j) ==> i == j
    ensures PipelineFile(i) != FinalPipelineFile
  {
    if PipelineFile(i) == PipelineFile(j) {
      NumberedInjective("pipeline_", i, j, ".yaml");
    }
    assert PipelineFile(i)[9] == NatToString(i)[0];
    assert FinalPipelineFile[9] == 'f';
  }

  /** What `parse_ontoflow` produces: the steps of the work chain and the
      pipeline documents it saves, each with its file name. */
  datatype Compiled = Compiled(steps: seq<ChainStep>, pipelines: seq<(string, Value)>)

  /** The loop state of `parse_ontoflow`: the steps and pipelines so far, the
      step counter `istep` and the last step node seen. */
  datatype Progress = Progress(steps: seq<ChainStep>, pipelines: seq<(string, Value)>, istep: nat, last: Option<nat>)

  /** The ids of the step nodes among the first `m` nodes, in id order. */
  function StepIds(g: seq<Node>, m: nat): seq<nat>
    requires m <= |g|
  {
    if m == 0 then [] else StepIds(g, m - 1) + (if IsStep(g[m - 1]) then [m - 1] else [])
  }

  /** The step ids below `m` are increasing and below `m`. */
  lemma {:induction false} StepIdsBounds(g: seq<Node>, m: nat)
    requires m <= |g|
    ensures Increasing(StepIds(g, m))
    ensures forall i :: 0 <= i < |StepIds(g, m)| ==> StepIds(g, m)[i] < m
  {
    if m > 0 {
      StepIdsBounds(g, m - 1);
      var prev := StepIds(g, m - 1);
      if IsStep(g[m - 1]) {
        assert StepIds(g, m) == prev + [m - 1];
        assert forall i :: 0 <= i < |prev| ==> prev[i] < m - 1;
      } else {
        assert StepIds(g, m) == prev;
      }
    }
  }

  /** The step ids below `m` are exactly the ids of the step nodes there. */
  lemma {:induction false} StepIdsMembers(g: seq<Node>, m: nat)
    requires m <= |g|
    ensures forall x :: 0 <= x < m ==> (x in StepIds(g, m) <==> IsStep(g[x]))
  {
    if m > 0 {
      StepIdsMembers(g, m - 1);
      StepIdsBounds(g, m - 1);
      var prev := StepIds(g, m - 1);
      var last: seq<nat> := if IsStep(g[m - 1]) then [m - 1] else [];
      assert StepIds(g, m) == prev + last;
      forall x | 0 <= x < m
        ensures x in StepIds(g, m) <==> IsStep(g[x])
      {
        if x == m - 1 {
          assert x !in prev;
        } else {
          assert x !in last;
        }
      }
    }
  }

  /** The step ids are increasing and are exactly the ids of the step nodes
      below `m`. */
  lemma StepIdsFacts(g: seq<Node>, m: nat)
    requires m <= |g|
    ensures Increasing(StepIds(g, m))
    ensures forall i :: 0 <= i < |StepIds(g, m)| ==> StepIds(g, m)[i] < m
    ensures forall x :: 0 <= x < m ==> (x in StepIds(g, m) <==> IsStep(g[x]))
  {
    StepIdsBounds(g, m);
    StepIdsMembers(g, m);
  }

  /** On the node list of a description, the step nodes `parse_ontoflow`
      visits are, in id order, exactly the nodes that stand for `hasOutput`
      children of some entry. */
  lemma StepIdsAreTools(d: Desc)
    ensures var g := Graph(d); var ids := StepIds(g, |g|);
      && Increasing(ids)
      && forall x :: 0 <= x < |g| ==> (x in ids <==> Roles(d)[x].Under? && Produces(Roles(d)[x].child))
  {
    var g := Graph(d);
    StepIdsFacts(g, |g|);
    forall x | 0 <= x < |g|
      ensures IsStep(g[x]) <==> Roles(d)[x].Under? && Produces(Roles(d)[x].child)
    {
      GraphClassification(d, x);
    }
  }

  /** How `parse_ontoflow` compiles a step node `k`: its pipeline step
      reading a given pipeline file, its calculation step, and the pipeline
      document generated for its inputs; and, for the last step node, the
      final pipeline step and the final pipeline document for its outputs.
      Generating a document and loading a resource may raise. */
  datatype StepCompiler = StepCompiler(
    pipelineStep: (nat, string) -> ChainStep,
    calculation: nat -> Result<ChainStep>,
    pipeline: nat -> Result<Value>,
    finalStep: nat -> ChainStep,
    finalPipeline: nat -> Result<Value>)

  /** One iteration of the loop of `parse_ontoflow`: a step node has its
      pipeline generated, then adds its pipeline step (with the next pipeline
      file) and its calculation step, and becomes the last step node; any
      other node changes nothing. */
  function Visit(isStep: bool, k: nat, s: Progress, c: StepCompiler): Result<Progress>
  {
    if !isStep then Ok(s)
    else
      var file := PipelineFile(s.istep);
      var pipeline :- c.pipeline(k);
      var calculation :- c.calculation(k);
      Ok(Progress(s.steps + [c.pipelineStep(k, file), calculation],
                  s.pipelines + [(file, pipeline)],
                  s.istep + 1, Some(k)))
  }

  /** The loop state after the first `m` nodes. */
  function ChainUpTo(g: seq<Node>, m: nat, c: StepCompiler): (r: Result<Progress>)
    requires m <= |g|
    ensures r.Ok? && r.value.last.Some? ==> r.value.last.value < m
  {
    if m == 0 then Ok(Progress([], [], 0, None))
    else
      var s :- ChainUpTo(g, m - 1, c);
      Visit(IsStep(g[m - 1]), m - 1, s, c)
  }

  /** The whole of `parse_ontoflow` over a node list: the loop, then the
      final pipeline of the last step node, if there is one, and its final
      pipeline step. */
  function ParseWith(g: seq<Node>, c: StepCompiler): Result<Compiled>
  {
    var s :- ChainUpTo(g, |g|, c);
    match s.last
    case None => Ok(Compiled(s.steps, s.pipelines))
    case Some(k) =>
      var pipeline :- c.finalPipeline(k);
      Ok(Compiled(s.steps + [c.finalStep(k)], s.pipelines + [(FinalPipelineFile, pipeline)]))
  }

  /** Node `k` exists and refers only to nodes of the list, as every node of
      a well-formed list does. */
  predicate Refers(g: seq<Node>, k: nat)
  {
    k < |g| && InRange(g, g[k].inputs) && InRange(g, g[k].outputs)
  }

  /** `n.pipeline_step(file)` for node `k`. */
  function PipelineStepAt(g: seq<Node>, k: nat, file: string): ChainStep
  {
    if Refers(g, k) then PipelineStepOf(g, g[k], file, false) else Pipeline([], None)
  }

  /** `n.calculation_step(load_simulation_resource(kb, n.iri))` with the
      resource already loaded. */
  function LoadedCalculation(g: seq<Node>, n: Node, resource: Result<Value>): Result<ChainStep>
    requires InRange(g, n.inputs) && InRange(g, n.outputs)
  {
    var loaded :- resource;
    CalculationSpec(g, n, loaded)
  }

  /** `n.calculation_step(load_simulation_resource(kb, n.iri))` for node `k`:
      the resource is loaded first, and a failure to load it is the step's
      failure. */
  function CalculationAt(g: seq<Node>, k: nat, load: Loader): Result<ChainStep>
  {
    if Refers(g, k) then LoadedCalculation(g, g[k], load(g[k].iri)) else Err(IndexError)
  }

  /** `generate_ontoflow_pipeline(kb, n.inputs)` for node `k`. */
  function PipelineDocAt(g: seq<Node>, k: nat, generate: Generator): Result<Value>
  {
    if Refers(g, k) then generate(g, g[k].inputs, false) else Err(IndexError)
  }

  /** `last.pipeline_step("pipeline_final.yaml", True)` for node `k`. */
  function FinalStepAt(g: seq<Node>, k: nat): ChainStep
  {
    if Refers(g, k) then PipelineStepOf(g, g[k], FinalPipelineFile, true) else Pipeline([], None)
  }

  /** `generate_ontoflow_pipeline(kb, last.outputs, True, target_ts=target_kb)`
      for node `k`. */
  function FinalPipelineAt(g: seq<Node>, k: nat, generate: Generator): Result<Value>
  {
    if Refers(g, k) then generate(g, g[k].outputs, true) else Err(IndexError)
  }

  /** The step compiler of `parse_ontoflow` for a node list. */
  function Compiler(g: seq<Node>, generate: Generator, load: Loader): StepCompiler
  {
    StepCompiler((k: nat, file: string) => PipelineStepAt(g, k, file),
                 (k: nat) => CalculationAt(g, k, load),
                 (k: nat) => PipelineDocAt(g, k, generate),
                 (k: nat) => FinalStepAt(g, k),
                 (k: nat) => FinalPipelineAt(g, k, generate))
  }

  /** On a well-formed node list, the step compiler of `parse_ontoflow`
      compiles node `k` with `pipeline_step`, with `calculation_step` on the
      loaded resource (or the failure to load it), and with the pipelines
      generated for the node's inputs and, at the end, its outputs. */
  lemma CompilerSteps(g: seq<Node>, generate: Generator, load: Loader, k: nat, file: string)
    requires Wf(g) && k < |g|
    ensures Refers(g, k)
    ensures var c := Compiler(g, generate, load);
      && c.pipelineStep(k, file) == PipelineStepOf(g, g[k], file, false)
      && (load(g[k].iri).Err? ==> c.calculation(k) == Err(load(g[k].iri).error))
      && (load(g[k].iri).Ok? ==> c.calculation(k) == CalculationSpec(g, g[k], load(g[k].iri).value))
      && c.pipeline(k) == generate(g, g[k].inputs, false)
      && c.finalStep(k) == PipelineStepOf(g, g[k], FinalPipelineFile, true)
      && c.finalPipeline(k) == generate(g, g[k].outputs, true)
  {
    NodeRefsInRange(g, k);
  }

  /** `parse_ontoflow(workflow_data, kb, outdir, target_kb)`, without the
      files it writes: the chain and the pipelines, or the first exception
      raised while generating a pipeline, loading a resource or building a
      calculation step. */
  function ParseSpec(d: Desc, generate: Generator, load: Loader): Result<Compiled>
  {
    var g := Graph(d);
    ParseWith(g, Compiler(g, generate, load))
  }

  /** Once a step node fails, the loop never recovers: every later state is
      that failure. */
  lemma {:induction false} ChainUpToStops(g: seq<Node>, m: nat, m': nat, c: StepCompiler)
    requires m <= m' <= |g| && ChainUpTo(g, m, c).Err?
    ensures ChainUpTo(g, m', c) == ChainUpTo(g, m, c)
    decreases m' - m
  {
    if m < m' {
      ChainUpToStops(g, m, m' - 1, c);
    }
  }

  /** After the first `m` nodes, the chain holds two steps and one pipeline
      per step node, the counter is the number of step nodes and the last
      step node is the last of them. */
  lemma {:induction false} ChainUpToCounts(g: seq<Node>, m: nat, c: StepCompiler)
    requires m <= |g|
    ensures var r := ChainUpTo(g, m, c); var ids := StepIds(g, m);
      r.Ok? ==>
        && |r.value.steps| == 2 * |ids| && |r.value.pipelines| == |ids| && r.value.istep == |ids|
        && (r.value.last.None? <==> ids == [])
        && (r.value.last.Some? ==> r.value.last.value == ids[|ids| - 1])
  {
    if m > 0 {
      ChainUpToCounts(g, m - 1, c);
    }
  }

  /** The steps of the `i`-th step node, in id order: its pipeline step
      reads `pipeline_<i>.yaml` and is followed by its calculation step, and
      the `i`-th pipeline is the one generated for it. */
  lemma {:induction false} ChainUpToAt(g: seq<Node>, m: nat, c: StepCompiler, i: nat)
    requires m <= |g| && ChainUpTo(g, m, c).Ok? && i < |StepIds(g, m)|
    ensures var s := ChainUpTo(g, m, c).value; var x := StepIds(g, m)[i];
      && 2 * i + 1 < |s.steps| && i < |s.pipelines|
      && s.steps[2 * i] == c.pipelineStep(x, PipelineFile(i))
      && c.calculation(x) == Ok(s.steps[2 * i + 1])
      && s.pipelines[i].0 == PipelineFile(i)
      && c.pipeline(x) == Ok(s.pipelines[i].1)
  {
    var ids := StepIds(g, m - 1);
    var prev := ChainUpTo(g, m - 1, c);
    ChainUpToCounts(g, m - 1, c);
    if i < |ids| {
      ChainUpToAt(g, m - 1, c, i);
      assert StepIds(g, m)[i] == ids[i];
    } else {
      assert StepIds(g, m)[i] == m - 1;
    }
  }

  /** A step node compiles when its pipeline is generated and its
      calculation step is built. */
  predicate Compiles(c: StepCompiler, x: nat)
  {
    c.pipeline(x).Ok? && c.calculation(x).Ok?
  }

  /** The exception a failing step node raises: that of its pipeline, which
      is generated first, else that of its calculation step. */
  function StepError(c: StepCompiler, x: nat): Error
    requires !Compiles(c, x)
  {
    if c.pipeline(x).Err? then c.pipeline(x).error else c.calculation(x).error
  }

  /** The loop succeeds exactly when every step node compiles. */
  lemma {:induction false} ChainUpToOk(g: seq<Node>, m: nat, c: StepCompiler)
    requires m <= |g|
    ensures ChainUpTo(g, m, c).Ok? <==> forall x :: x in StepIds(g, m) ==> Compiles(c, x)
  {
    if m > 0 {
      ChainUpToOk(g, m - 1, c);
      var prev := StepIds(g, m - 1);
      assert StepIds(g, m) == prev + (if IsStep(g[m - 1]) then [m - 1] else []);
      if IsStep(g[m - 1]) {
        assert m - 1 in StepIds(g, m);
      }
      if ChainUpTo(g, m - 1, c).Err? {
        var x :| x in prev && !Compiles(c, x);
        assert x in StepIds(g, m);
      }
    }
  }

  /** A failing loop raises the exception of the first step node, in id
      order, that does not compile; every step node before it compiles. */
  lemma {:induction false} ChainUpToError(g: seq<Node>, m: nat, c: StepCompiler)
    requires m <= |g| && ChainUpTo(g, m, c).Err?
    ensures var ids := StepIds(g, m);
      exists i :: 0 <= i < |ids| && !Compiles(c, ids[i]) &&
        ChainUpTo(g, m, c).error == StepError(c, ids[i]) &&
        forall j :: 0 <= j < i ==> Compiles(c, ids[j])
  {
    var prev := StepIds(g, m - 1);
    assert StepIds(g, m) == prev + (if IsStep(g[m - 1]) then [m - 1] else []);
    if ChainUpTo(g, m - 1, c).Err? {
      ChainUpToError(g, m - 1, c);
      var i :| 0 <= i < |prev| && !Compiles(c, prev[i]) &&
        ChainUpTo(g, m - 1, c).error == StepError(c, prev[i]) &&
        forall j :: 0 <= j < i ==> Compiles(c, prev[j]);
      assert StepIds(g, m)[i] == prev[i];
      assert forall j :: 0 <= j < i ==> StepIds(g, m)[j] == prev[j];
    } else {
      ChainUpToOk(g, m - 1, c);
      var i := |prev|;
      assert StepIds(g, m)[i] == m - 1;
      forall j | 0 <= j < i
        ensures Compiles(c, StepIds(g, m)[j])
      {
        assert StepIds(g, m)[j] == prev[j] && prev[j] in prev;
      }
    }
  }

  /** The compiled chain: two steps per step node in id order, with
      `pipeline_0.yaml`, `pipeline_1.yaml`, ... as their pipeline files, then
      one final pipeline step for the last step node; nothing at all when
      there is no step node. It fails exactly when some step node does not
      compile or the final pipeline cannot be generated. */
  lemma ParseShape(g: seq<Node>, c: StepCompiler)
    ensures var ids := StepIds(g, |g|); var r := ParseWith(g, c);
      && (forall x :: 0 <= x < |g| ==> (x in ids <==> IsStep(g[x])))
      && (r.Ok? <==>
            (forall x :: x in ids ==> Compiles(c, x)) &&
            (ids != [] ==> c.finalPipeline(ids[|ids| - 1]).Ok?))
      && (r.Ok? ==>
            && |r.value.steps| == 2 * |ids| + (if ids == [] then 0 else 1)
            && |r.value.pipelines| == |ids| + (if ids == [] then 0 else 1)
            && (forall i :: 0 <= i < |ids| ==>
                  && r.value.steps[2 * i] == c.pipelineStep(ids[i], PipelineFile(i))
                  && c.calculation(ids[i]) == Ok(r.value.steps[2 * i + 1])
                  && r.value.pipelines[i].0 == PipelineFile(i)
                  && c.pipeline(ids[i]) == Ok(r.value.pipelines[i].1))
            && (ids != [] ==>
                  && r.value.steps[2 * |ids|] == c.finalStep(ids[|ids| - 1])
                  && r.value.pipelines[|ids|].0 == FinalPipelineFile
                  && c.finalPipeline(ids[|ids| - 1]) == Ok(r.value.pipelines[|ids|].1)))
  {
    StepIdsFacts(g, |g|);
    ChainUpToOk(g, |g|, c);
    ChainUpToCounts(g, |g|, c);
    var ids := StepIds(g, |g|);
    if ChainUpTo(g, |g|, c).Ok? {
      forall i | 0 <= i < |ids|
        ensures var s := ChainUpTo(g, |g|, c).value;
          && s.steps[2 * i] == c.pipelineStep(ids[i], PipelineFile(i))
          && c.calculation(ids[i]) == Ok(s.steps[2 * i + 1])
          && s.pipelines[i].0 == PipelineFile(i)
          && c.pipeline(ids[i]) == Ok(s.pipelines[i].1)
      {
        ChainUpToAt(g, |g|, c, i);
      }
    }
  }

  /** `c` compiles every node of the list that refers only to nodes of the
      list as `parse_ontoflow` does: with `pipeline_step`, with
      `calculation_step` on the loaded resource, and with the pipeline
      generated for its inputs. */
  ghost predicate Agrees(g: seq<Node>, generate: Generator, load: Loader, c: StepCompiler)
  {
    forall k: nat {:trigger Refers(g, k)} :: Refers(g, k) ==>
      && c.calculation(k) == LoadedCalculation(g, g[k], load(g[k].iri))
      && c.pipeline(k) == generate(g, g[k].inputs, false)
      && forall file :: c.pipelineStep(k, file) == PipelineStepOf(g, g[k], file, false)
  }

  /** The step compiler of `parse_ontoflow` agrees with it on every node of
      a well-formed list: the bridge that lets `ParseOntoflow` hand the
      concrete compiler to `VisitAll`. `CompilerSteps` states the same
      facts node by node. */
  lemma CompilerAgrees(g: seq<Node>, generate: Generator, load: Loader)
    requires Wf(g)
    ensures Agrees(g, generate, load, Compiler(g, generate, load))
  {
  }

  /** `generate_ontoflow_pipeline(kb, n.inputs)` for step node `k`, as the
      step compiler `c` does. */
  method GenerateFor(nodes: seq<Node>, k: nat, generate: Generator, ghost load: Loader, ghost c: StepCompiler)
    returns (r: Result<Value>)
    requires Wf(nodes) && k < |nodes| && Agrees(nodes, generate, load, c)
    ensures r == c.pipeline(k)
  {
    NodeRefsInRange(nodes, k);
    assert Refers(nodes, k);
    r := generate(nodes, nodes[k].inputs, false);
  }

  /** `n.pipeline_step(file)` for step node `k`, as the step compiler `c`
      does. */
  method PipelineStepFor(nodes: seq<Node>, k: nat, file: string, ghost generate: Generator, ghost load: Loader,
                         ghost c: StepCompiler)
    returns (step: ChainStep)
    requires Wf(nodes) && k < |nodes| && Agrees(nodes, generate, load, c)
    ensures step == c.pipelineStep(k, file)
  {
    NodeRefsInRange(nodes, k);
    assert Refers(nodes, k);
    step := PipelineStep(nodes, k, file, false);
  }

  /** `n.calculation_step(load_simulation_resource(kb, n.iri))` for step
      node `k`, as the step compiler `c` does. */
  method CompileCalculation(nodes: seq<Node>, k: nat, ghost generate: Generator, load: Loader, ghost c: StepCompiler)
    returns (r: Result<ChainStep>)
    requires Wf(nodes) && k < |nodes| && Agrees(nodes, generate, load, c)
    ensures r == c.calculation(k)
  {
    NodeRefsInRange(nodes, k);
    assert Refers(nodes, k);
    var resource :- load(nodes[k].iri);
    r := CalculationStep(nodes, nodes[k], resource);
  }

  /** One pass of the loop of `parse_ontoflow` over step node `k`: generates
      the pipeline saved under the next pipeline file, then adds the node's
      pipeline step and calculation step, as the step compiler `c` does. */
  method VisitStep(nodes: seq<Node>, k: nat, s: Progress, generate: Generator, load: Loader, ghost c: StepCompiler)
    returns (r: Result<Progress>)
    requires Wf(nodes) && k < |nodes| && Agrees(nodes, generate, load, c)
    ensures r == Visit(true, k, s, c)
  {
    var file := PipelineFile(s.istep);
    var pipeline :- GenerateFor(nodes, k, generate, load, c);
    var pipelineStep := PipelineStepFor(nodes, k, file, generate, load, c);
    var calculation :- CompileCalculation(nodes, k, generate, load, c);
    r := Ok(Progress(s.steps + [pipelineStep, calculation], s.pipelines + [(file, pipeline)], s.istep + 1, Some(k)));
  }

  /** The loop of `parse_ontoflow` over the node list, in id order, with a
      step compiler that agrees with it. */
  method VisitAll(nodes: seq<Node>, generate: Generator, load: Loader, ghost c: StepCompiler)
    returns (r: Result<Progress>)
    requires Wf(nodes) && Agrees(nodes, generate, load, c)
    ensures r == ChainUpTo(nodes, |nodes|, c)
  {
    var s := Progress([], [], 0, None);
    var k := 0;
    while k < |nodes|
      invariant 0 <= k <= |nodes|
      invariant ChainUpTo(nodes, k, c) == Ok(s)
    {
      if IsStep(nodes[k]) {
        var next := VisitStep(nodes, k, s, generate, load, c);
        if next.Err? {
          ChainUpToStops(nodes, k + 1, |nodes|, c);
          return next;
        }
        s := next.value;
      }
      k := k + 1;
    }
    r := Ok(s);
  }

  /** `parse_ontoflow`: builds the node list in place, visits every node,
      then generates the final pipeline for the last step node and adds its
      final pipeline step. */
  method ParseOntoflow(d: Desc, generate: Generator, load: Loader) returns (r: Result<Compiled>)
    ensures r == ParseSpec(d, generate, load)
  {
    var arena := new NodeArena();
    var _ := arena.AddNode(d);
    var nodes := arena.nodes;
    assert nodes == Graph(d);
    GraphShape(d);
    CompilerAgrees(nodes, generate, load);
    var s :- VisitAll(nodes, generate, load, Compiler(nodes, generate, load));
    match s.last {
      case None =>
        r := Ok(Compiled(s.steps, s.pipelines));
      case Some(lastId) =>
        CompilerSteps(nodes, generate, load, lastId, FinalPipelineFile);
        var pipeline :- generate(nodes, nodes[lastId].outputs, true);
        var finalStep := PipelineStep(nodes, lastId, FinalPipelineFile, true);
        r := Ok(Compiled(s.steps + [finalStep], s.pipelines + [(FinalPipelineFile, pipeline)]));
    }
  }
}
