/** The declarative work chain compiled from the node list
    (ontoconv/ontoflow.py: `Node.pipeline_step`, `Node.calculation_step`,
    `output_filenames`, `parse_ontoflow`).

    Every step node contributes two chain steps: a data pipeline that moves
    the node's inputs into the execution context, and a calculation that runs
    the simulation tool the node stands for. After the last step node, one
    final data pipeline carries that node's outputs out of the context. */
module Chain {
  import opened Text
  import opened PyData
  import opened Iri
  import opened Workflow

  /** One entry of a calculation's `files`: a file taken from the context
      (`node`) or a static file rendered from a template. */
  datatype FileEntry =
    | NodeFile(filename: Value, node: string)
    | TemplateFile(filename: Value, template: Value)

  /** A step of the work chain. */
  datatype ChainStep =
    | Pipeline(inputs: Entries, postprocess: Option<seq<string>>)
    | Calculation(workflow: Value, command: string, arguments: seq<string>,
                  files: seq<(string, FileEntry)>, outputs: seq<string>, outputPostprocess: seq<string>)

  /** The ids all lie in the node list. */
  predicate InRange(g: seq<Node>, ids: seq<nat>)
  {
    forall i :: 0 <= i < |ids| ==> ids[i] < |g|
  }

  /** A list of strings as a Python list. */
  function StrList(xs: seq<string>): (v: Value)
    ensures v.List? && |v.items| == |xs|
    ensures forall i :: 0 <= i < |xs| ==> v.items[i] == Str(xs[i])
  {
    List(seq(|xs|, i requires 0 <= i < |xs| => Str(xs[i])))
  }

  /** The Jinja expression that reads context variable `name`. */
  function CtxRef(name: string): string
  {
    "{{ ctx." + name + " }}"
  }

  /** `Node.input_postprocess`: store the pipeline result for the node in the
      context under the node's input variable. */
  function InputPostprocess(n: Node): string
  {
    var v := VarName(n, "input");
    "{{ ctx.current.outputs.results['" + v + "']|to_ctx('" + v + "') }}"
  }

  /** `Node.output_postprocess_execwrapper`: store the calculation's output
      file (dots in its name written as underscores) under the node's output
      variable. */
  function OutputPostprocess(n: Node, filename: string): string
  {
    "{{ ctx.current.outputs['" + ReplaceChar(filename, '.', '_') + "']|to_ctx('" + VarName(n, "output") + "') }}"
  }

  // -----------------------------------------------------------------------
  // pipeline_step
  // -----------------------------------------------------------------------

  /** `[ni.var_name("input") for ni in ...]`. */
  function InputNames(g: seq<Node>, ids: seq<nat>): (r: seq<string>)
    requires InRange(g, ids)
    ensures |r| == |ids| && forall i :: 0 <= i < |ids| ==> r[i] == VarName(g[ids[i]], "input")
  {
    seq(|ids|, i requires 0 <= i < |ids| => VarName(g[ids[i]], "input"))
  }

  /** `[ni.input_postprocess() for ni in ...]`. */
  function InputPostprocesses(g: seq<Node>, ids: seq<nat>): (r: seq<string>)
    requires InRange(g, ids)
    ensures |r| == |ids| && forall i :: 0 <= i < |ids| ==> r[i] == InputPostprocess(g[ids[i]])
  {
    seq(|ids|, i requires 0 <= i < |ids| => InputPostprocess(g[ids[i]]))
  }

  /** `[ni.var_name("output") for ni in ... if ni.is_ctx_node()]`. */
  function CtxNames(g: seq<Node>, ids: seq<nat>): (r: seq<string>)
    requires InRange(g, ids)
    ensures |r| <= |ids|
  {
    if ids == [] then []
    else (if IsCtxNode(g[ids[0]]) then [VarName(g[ids[0]], "output")] else []) + CtxNames(g, ids[1..])
  }

  /** The names come exactly from the listed context nodes, in order. */
  lemma {:induction false} CtxNamesMembers(g: seq<Node>, ids: seq<nat>)
    requires InRange(g, ids)
    ensures forall i :: 0 <= i < |ids| && IsCtxNode(g[ids[i]]) ==> VarName(g[ids[i]], "output") in CtxNames(g, ids)
    ensures forall name :: name in CtxNames(g, ids) ==>
              exists i :: 0 <= i < |ids| && IsCtxNode(g[ids[i]]) && name == VarName(g[ids[i]], "output")
  {
    if ids != [] {
      CtxNamesMembers(g, ids[1..]);
      var rest := CtxNames(g, ids[1..]);
      assert forall i :: 1 <= i < |ids| ==> ids[i] == ids[1..][i - 1];
    }
  }

  /** Distinct nodes give distinct names. */
  lemma {:induction false} CtxNamesDistinct(g: seq<Node>, ids: seq<nat>)
    requires Wf(g) && InRange(g, ids) && Distinct(ids)
    ensures Distinct(CtxNames(g, ids))
  {
    if ids != [] {
      assert InRange(g, ids[1..]) && Distinct(ids[1..]);
      CtxNamesDistinct(g, ids[1..]);
      CtxNamesMembers(g, ids[1..]);
      if IsCtxNode(g[ids[0]]) {
        var name := VarName(g[ids[0]], "output");
        forall j | 0 <= j < |ids[1..]| && IsCtxNode(g[ids[1..][j]])
          ensures name != VarName(g[ids[1..][j]], "output")
        {
          VarNameInjective(g[ids[0]], g[ids[1..][j]], "output", "output");
          assert NodeWf(g, ids[0]) && NodeWf(g, ids[1..][j]);
          assert ids[0] != ids[j + 1];
        }
        var rest := CtxNames(g, ids[1..]);
        assert name !in rest;
        assert forall j :: 0 <= j < |rest| ==> rest[j] in rest;
        assert CtxNames(g, ids) == [name] + rest;
      }
    }
  }

  /** The context entries `to_cuds` adds: each name mapped to its reference. */
  function CtxEntries(names: seq<string>): (es: Entries)
    ensures Keys(es) == names
    ensures forall i :: 0 <= i < |names| ==> es[i].1 == Str(CtxRef(names[i]))
  {
    seq(|names|, i requires 0 <= i < |names| => (names[i], Str(CtxRef(names[i]))))
  }

  /** `{"$ref": "file:__DIR__/<file>"}`. */
  function PipelineRef(file: string): Value
  {
    Dict([("$ref", Str("file:__DIR__/" + file))])
  }

  /** The node variables `pipeline_step` exposes through `to_cuds`: those of
      the context nodes among the inputs, or among the outputs for the final
      step. */
  function ToCuds(g: seq<Node>, n: Node, isLast: bool): seq<string>
    requires InRange(g, n.inputs) && InRange(g, n.outputs)
  {
    CtxNames(g, if isLast then n.outputs else n.inputs)
  }

  const FixedKeys: seq<string> := ["pipeline", "run_pipeline", "from_cuds", "to_cuds"]

  /** The fixed entries of a pipeline step's `inputs`: the pipeline reference,
      the pipeline name, `from_cuds` unless final, and `to_cuds` when some
      variable is exposed. */
  function PipelineHead(g: seq<Node>, n: Node, file: string, isLast: bool): Entries
    requires InRange(g, n.inputs) && InRange(g, n.outputs)
  {
    var toCuds := ToCuds(g, n, isLast);
    [("pipeline", PipelineRef(file)), ("run_pipeline", Str("pipe"))]
    + (if isLast then [] else [("from_cuds", StrList(InputNames(g, n.inputs)))])
    + (if toCuds == [] then [] else [("to_cuds", StrList(toCuds))])
  }

  /** The `inputs` mapping of a pipeline step: the fixed entries followed by
      one context reference per exposed variable. */
  function PipelineInputs(g: seq<Node>, n: Node, file: string, isLast: bool): Entries
    requires InRange(g, n.inputs) && InRange(g, n.outputs)
  {
    PipelineHead(g, n, file, isLast) + CtxEntries(ToCuds(g, n, isLast))
  }

  /** `Node.pipeline_step(pipeline_file, is_last)`. */
  function PipelineStepOf(g: seq<Node>, n: Node, file: string, isLast: bool): ChainStep
    requires InRange(g, n.inputs) && InRange(g, n.outputs)
  {
    Pipeline(PipelineInputs(g, n, file, isLast), if isLast then None else Some(InputPostprocesses(g, n.inputs)))
  }

  /** A node of a well-formed list refers only to nodes in it. */
  lemma NodeRefsInRange(g: seq<Node>, k: nat)
    requires Wf(g) && k < |g|
    ensures InRange(g, g[k].inputs) && InRange(g, g[k].outputs)
    ensures Distinct(g[k].inputs) && Distinct(g[k].outputs)
  {
    assert NodeWf(g, k);
    assert forall i :: 0 <= i < |g[k].inputs| ==> g[k].inputs[i] in g[k].inputs;
    assert forall i :: 0 <= i < |g[k].outputs| ==> g[k].outputs[i] in g[k].outputs;
  }

  /** Variable names never clash with the fixed keys of a pipeline step. */
  lemma VarNameNotFixed(n: Node, dtype: string)
    ensures VarName(n, dtype) !in FixedKeys
  {
    assert VarName(n, dtype)[0] == 'd';
  }

  /** The fixed keys present in a pipeline step, in their order. */
  lemma HeadKeys(g: seq<Node>, n: Node, file: string, isLast: bool)
    requires InRange(g, n.inputs) && InRange(g, n.outputs)
    ensures var ks := Keys(PipelineHead(g, n, file, isLast));
      && Distinct(ks) && (forall x :: x in ks ==> x in FixedKeys)
      && "pipeline" in ks && "run_pipeline" in ks
      && ("from_cuds" in ks <==> !isLast)
      && ("to_cuds" in ks <==> ToCuds(g, n, isLast) != [])
  {
    var toCuds := ToCuds(g, n, isLast);
    var ks := Keys(PipelineHead(g, n, file, isLast));
    if isLast && toCuds == [] {
      assert ks == ["pipeline", "run_pipeline"];
    } else if isLast {
      assert ks == ["pipeline", "run_pipeline", "to_cuds"];
    } else if toCuds == [] {
      assert ks == ["pipeline", "run_pipeline", "from_cuds"];
    } else {
      assert ks == ["pipeline", "run_pipeline", "from_cuds", "to_cuds"];
    }
  }

  /** Each fixed entry of a pipeline step holds what `pipeline_step` puts
      there. */
  lemma HeadLookup(g: seq<Node>, n: Node, file: string, isLast: bool)
    requires InRange(g, n.inputs) && InRange(g, n.outputs)
    ensures var head := PipelineHead(g, n, file, isLast); var toCuds := ToCuds(g, n, isLast);
      && Lookup(head, "pipeline") == Some(PipelineRef(file))
      && Lookup(head, "run_pipeline") == Some(Str("pipe"))
      && (!isLast ==> Lookup(head, "from_cuds") == Some(StrList(InputNames(g, n.inputs))))
      && (toCuds != [] ==> Lookup(head, "to_cuds") == Some(StrList(toCuds)))
  {
    var head := PipelineHead(g, n, file, isLast);
    HeadKeys(g, n, file, isLast);
    LookupDistinct(head, 0);
    LookupDistinct(head, 1);
    if !isLast {
      LookupDistinct(head, 2);
    }
    if ToCuds(g, n, isLast) != [] {
      LookupDistinct(head, |head| - 1);
    }
  }

  /** The exposed variables never use a fixed key. */
  lemma ToCudsNotFixed(g: seq<Node>, n: Node, isLast: bool)
    requires InRange(g, n.inputs) && InRange(g, n.outputs)
    ensures forall name :: name in ToCuds(g, n, isLast) ==> name !in FixedKeys
  {
    var ids := if isLast then n.outputs else n.inputs;
    CtxNamesMembers(g, ids);
    forall name | name in ToCuds(g, n, isLast)
      ensures name !in FixedKeys
    {
      var i :| 0 <= i < |ids| && IsCtxNode(g[ids[i]]) && name == VarName(g[ids[i]], "output");
      VarNameNotFixed(g[ids[i]], "output");
    }
  }

  /** Each exposed variable finds its own context reference. */
  lemma CtxEntriesLookup(names: seq<string>, name: string)
    requires Distinct(names) && name in names
    ensures Lookup(CtxEntries(names), name) == Some(Str(CtxRef(name)))
  {
    var i :| 0 <= i < |names| && names[i] == name;
    LookupDistinct(CtxEntries(names), i);
  }

  /** The keys of a pipeline step's `inputs` are distinct: the exposed
      variables are distinct and never clash with a fixed key. */
  lemma PipelineInputsDistinct(g: seq<Node>, k: nat, file: string, isLast: bool)
    requires Wf(g) && k < |g|
    ensures InRange(g, g[k].inputs) && InRange(g, g[k].outputs)
    ensures Distinct(ToCuds(g, g[k], isLast))
    ensures Distinct(Keys(PipelineInputs(g, g[k], file, isLast)))
  {
    var n := g[k];
    NodeRefsInRange(g, k);
    var toCuds := ToCuds(g, n, isLast);
    CtxNamesDistinct(g, if isLast then n.outputs else n.inputs);
    var head := PipelineHead(g, n, file, isLast);
    HeadKeys(g, n, file, isLast);
    ToCudsNotFixed(g, n, isLast);
    KeysAppend(head, CtxEntries(toCuds));
    DistinctAppend(Keys(head), toCuds);
  }

  /** The fixed keys of a pipeline step's `inputs` find what the head
      holds: the exposed variables never shadow them. */
  lemma FixedLookup(g: seq<Node>, n: Node, file: string, isLast: bool, key: string)
    requires InRange(g, n.inputs) && InRange(g, n.outputs)
    requires key in FixedKeys
    ensures Lookup(PipelineInputs(g, n, file, isLast), key) == Lookup(PipelineHead(g, n, file, isLast), key)
  {
    var toCuds := ToCuds(g, n, isLast);
    ToCudsNotFixed(g, n, isLast);
    assert key !in Keys(CtxEntries(toCuds));
    LookupKeys(PipelineHead(g, n, file, isLast), key);
    LookupKeys(CtxEntries(toCuds), key);
    LookupAppend(PipelineHead(g, n, file, isLast), CtxEntries(toCuds), key);
  }

  /** Each exposed variable of a pipeline step's `inputs` finds its context
      reference. */
  lemma CtxLookup(g: seq<Node>, n: Node, file: string, isLast: bool, name: string)
    requires InRange(g, n.inputs) && InRange(g, n.outputs)
    requires Distinct(ToCuds(g, n, isLast)) && name in ToCuds(g, n, isLast)
    ensures Lookup(PipelineInputs(g, n, file, isLast), name) == Some(Str(CtxRef(name)))
  {
    var toCuds := ToCuds(g, n, isLast);
    HeadKeys(g, n, file, isLast);
    ToCudsNotFixed(g, n, isLast);
    LookupAppend(PipelineHead(g, n, file, isLast), CtxEntries(toCuds), name);
    CtxEntriesLookup(toCuds, name);
  }

  /** Every entry of a pipeline step's `inputs` is what a lookup of its key
      finds: the pipeline file, the pipeline name, `from_cuds` exactly when
      the step is not final, `to_cuds` exactly when some variable is exposed,
      and every exposed variable's context reference. */
  lemma PipelineInputsLookup(g: seq<Node>, k: nat, file: string, isLast: bool)
    requires Wf(g) && k < |g|
    ensures InRange(g, g[k].inputs) && InRange(g, g[k].outputs)
    ensures var es := PipelineInputs(g, g[k], file, isLast); var toCuds := ToCuds(g, g[k], isLast);
      && Lookup(es, "pipeline") == Some(PipelineRef(file))
      && Lookup(es, "run_pipeline") == Some(Str("pipe"))
      && (Lookup(es, "from_cuds").Some? <==> !isLast)
      && (!isLast ==> Lookup(es, "from_cuds") == Some(StrList(InputNames(g, g[k].inputs))))
      && (Lookup(es, "to_cuds").Some? <==> toCuds != [])
      && (toCuds != [] ==> Lookup(es, "to_cuds") == Some(StrList(toCuds)))
      && (forall name :: name in toCuds ==> Lookup(es, name) == Some(Str(CtxRef(name))))
  {
    PipelineInputsDistinct(g, k, file, isLast);
    var n := g[k];
    HeadKeys(g, n, file, isLast);
    HeadLookup(g, n, file, isLast);
    LookupKeys(PipelineHead(g, n, file, isLast), "from_cuds");
    LookupKeys(PipelineHead(g, n, file, isLast), "to_cuds");
    FixedLookup(g, n, file, isLast, "pipeline");
    FixedLookup(g, n, file, isLast, "run_pipeline");
    FixedLookup(g, n, file, isLast, "from_cuds");
    FixedLookup(g, n, file, isLast, "to_cuds");
    forall name | name in ToCuds(g, n, isLast)
      ensures Lookup(PipelineInputs(g, n, file, isLast), name) == Some(Str(CtxRef(name)))
    {
      CtxLookup(g, n, file, isLast, name);
    }
  }

  /** The `for output in to_cuds: inputs[output] = ...` loop of
      `pipeline_step`: each name is assigned its context reference, in order. */
  method PutCtxEntries(inputs: Entries, names: seq<string>) returns (r: Entries)
    requires Distinct(Keys(inputs + CtxEntries(names)))
    ensures r == inputs + CtxEntries(names)
  {
    ghost var full := inputs + CtxEntries(names);
    assert full[..|inputs|] == inputs;
    r := inputs;
    var i := 0;
    while i < |names|
      invariant 0 <= i <= |names|
      invariant r == full[..|inputs| + i]
    {
      var output := names[i];
      assert full[|inputs| + i] == (output, Str(CtxRef(output)));
      PutNext(full, |inputs| + i, output, Str(CtxRef(output)));
      r := Put(r, output, Str(CtxRef(output)));
      i := i + 1;
    }
    assert full[..|inputs| + i] == full;
  }

  /** `Node.pipeline_step(pipeline_file, is_last)` for node `k`: fixed
      entries first, then `to_cuds` and, one dictionary assignment at a time,
      a context reference for every exposed variable. */
  method PipelineStep(g: seq<Node>, k: nat, file: string, isLast: bool) returns (r: ChainStep)
    requires Wf(g) && k < |g|
    ensures InRange(g, g[k].inputs) && InRange(g, g[k].outputs)
    ensures r == PipelineStepOf(g, g[k], file, isLast)
  {
    var n := g[k];
    PipelineInputsDistinct(g, k, file, isLast);
    var inputs: Entries := [("pipeline", PipelineRef(file)), ("run_pipeline", Str("pipe"))];
    var toCuds: seq<string>;
    if !isLast {
      PutKeys(inputs, "from_cuds", StrList(InputNames(g, n.inputs)));
      inputs := Put(inputs, "from_cuds", StrList(InputNames(g, n.inputs)));
      toCuds := CtxNames(g, n.inputs);
    } else {
      toCuds := CtxNames(g, n.outputs);
    }
    ghost var full := PipelineInputs(g, n, file, isLast);
    if |toCuds| != 0 {
      PutKeys(inputs, "to_cuds", StrList(toCuds));
      inputs := Put(inputs, "to_cuds", StrList(toCuds));
      assert inputs == PipelineHead(g, n, file, isLast);
      inputs := PutCtxEntries(inputs, toCuds);
    } else {
      assert full == inputs;
    }
    var post: Option<seq<string>> := None;
    if !isLast {
      post := Some(InputPostprocesses(g, n.inputs));
    }
    r := Pipeline(inputs, post);
  }

  // -----------------------------------------------------------------------
  // calculation_step and output_filenames
  // -----------------------------------------------------------------------

  /** The nodes `ids` refer to, in order. */
  function Nodes(g: seq<Node>, ids: seq<nat>): (r: seq<Node>)
    requires InRange(g, ids)
    ensures |r| == |ids| && forall i :: 0 <= i < |ids| ==> r[i] == g[ids[i]]
  {
    seq(|ids|, i requires 0 <= i < |ids| => g[ids[i]])
  }

  /** `Node.filename(resource)`: the location of the configuration of the
      last function the resource documents for the node's knowledge-base
      name. */
  function NodeFilename(n: Node, resource: Value): Result<Value>
  {
    var byName :- Get(resource, "input");
    var documented :- Get(byName, KbSuffix(n.iri));
    var last :- Subscript(documented, Int(-1));
    FunctionLocation(last)
  }

  /** `f["function"]["configuration"]["location"]`. */
  function FunctionLocation(f: Value): Result<Value>
  {
    var func :- Get(f, "function");
    var configuration :- Get(func, "configuration");
    Get(configuration, "location")
  }

  /** Where `Node.filename` fails early: a resource that is not a mapping,
      one without `input`, and a node whose documented functions are an
      empty list. A node with functions uses the last one's location. */
  lemma NodeFilenameCases(n: Node, resource: Value)
    ensures !resource.Dict? ==> NodeFilename(n, resource) == Err(TypeError)
    ensures resource.Dict? && "input" !in Keys(resource.entries) ==>
              NodeFilename(n, resource) == Err(KeyError(Str("input")))
    ensures var byName := Get(resource, "input");
            byName.Ok? && Get(byName.value, KbSuffix(n.iri)).Ok? && Get(byName.value, KbSuffix(n.iri)).value.List? ==>
              var fs := Get(byName.value, KbSuffix(n.iri)).value.items;
              && (fs == [] ==> NodeFilename(n, resource) == Err(IndexError))
              && (fs != [] ==> NodeFilename(n, resource) == FunctionLocation(fs[|fs| - 1]))
  {
    GetCases(resource, "input");
    var byName := Get(resource, "input");
    if byName.Ok? {
      var documented := Get(byName.value, KbSuffix(n.iri));
      if documented.Ok? && documented.value.List? {
        SubscriptCases(documented.value, Int(-1));
      }
    }
  }

  /** The `files` entry of one input: its file name and the context variable
      that holds it. */
  function NodeEntry(m: Node, resource: Value): Result<FileEntry>
  {
    var filename :- NodeFilename(m, resource);
    Ok(NodeFile(filename, CtxRef(VarName(m, "input"))))
  }

  function NodeEntryOf(resource: Value): Node -> Result<FileEntry>
  {
    m => NodeEntry(m, resource)
  }

  /** The `files` entry of one static file: its target name and the template
      it is rendered from. */
  function TemplateEntry(item: Value): (r: Result<FileEntry>)
    ensures r.Ok? <==> Get(item, "target_file").Ok? && Get(item, "source_uri").Ok?
    ensures r.Ok? ==> r.value == TemplateFile(Get(item, "target_file").value, Get(item, "source_uri").value)
  {
    var target :- Get(item, "target_file");
    var source :- Get(item, "source_uri");
    Ok(TemplateFile(target, source))
  }

  function TemplateEntryOf(): Value -> Result<FileEntry>
  {
    item => TemplateEntry(item)
  }

  /** A resource without `files` has no static files; every static file is
      rendered from a template named by its `source_uri`. */
  lemma StaticFilesTemplates(resource: Value)
    ensures resource.Dict? && "files" !in Keys(resource.entries) ==> StaticFiles(resource) == Ok([])
    ensures var r := StaticFiles(resource);
      r.Ok? ==> forall i :: 0 <= i < |r.value| ==> r.value[i].TemplateFile?
  {
    var r := StaticFiles(resource);
    if r.Ok? && r.value != [] {
      var items := Iterate(Get(resource, "files").value).value;
      MapResultShape(items, TemplateEntryOf());
      forall i | 0 <= i < |r.value|
        ensures r.value[i].TemplateFile?
      {
        assert TemplateEntryOf()(items[i]) == Ok(r.value[i]);
      }
    }
  }

  /** The static files of `resource["files"]`, when the resource has that
      key; none otherwise. */
  function StaticFiles(resource: Value): Result<seq<FileEntry>>
  {
    var present :- Contains(resource, Str("files"));
    if !present then Ok([])
    else
      var files :- Get(resource, "files");
      var items :- Iterate(files);
      MapResult(items, TemplateEntryOf())
  }

  /** `resource["command"].replace("\\", "").split()`: the command line
      without backslashes (line continuations), cut into its words. Only a
      string has `replace`. */
  function Command(resource: Value): Result<seq<string>>
  {
    var command :- Get(resource, "command");
    if command.Str? then Ok(Split(RemoveChar(command.s, '\\'))) else Err(AttributeError)
  }

  /** The words of the command line hold all of its non-space characters, in
      order, and no backslash; reading it fails only when `command` is
      missing or not a string. */
  lemma CommandWords(resource: Value)
    ensures Command(resource).Ok? <==> Get(resource, "command").Ok? && Get(resource, "command").value.Str?
    ensures Get(resource, "command").Ok? && !Get(resource, "command").value.Str? ==>
              Command(resource) == Err(AttributeError)
    ensures Command(resource).Ok? ==>
              var line := RemoveChar(Get(resource, "command").value.s, '\\');
              && Concat(Command(resource).value) == NonSpace(line)
              && forall w :: w in Command(resource).value ==> w != [] && '\\' !in w && forall c :: c in w ==> !IsSpace(c)
  {
    var command := Get(resource, "command");
    if command.Ok? && command.value.Str? {
      var line := RemoveChar(command.value.s, '\\');
      SplitKeepsNonSpace(line);
      SplitAvoids(line, '\\');
    }
  }

  /** The download URL of output `o`: the data resource of the first item
      documented for it, rendered with `str`. */
  function DownloadUrl(outputs: Value, o: Value): Result<string>
  {
    var documented :- Subscript(outputs, o);
    var first :- Subscript(documented, Int(0));
    var dataresource :- Get(first, "dataresource");
    var url :- Get(dataresource, "downloadUrl");
    Ok(Format(url))
  }

  function DownloadUrlOf(outputs: Value): Value -> Result<string>
  {
    o => DownloadUrl(outputs, o)
  }

  /** `output_filenames(resource)`: one download URL per entry of
      `resource["output"]`, in its order. */
  function OutputFilenames(resource: Value): Result<seq<string>>
  {
    var outputs :- Get(resource, "output");
    var keys :- Iterate(outputs);
    MapResult(keys, DownloadUrlOf(outputs))
  }

  /** One file name per entry of `resource["output"]`, in its order: for a
      mapping, one per key. */
  lemma OutputFilenamesPerKey(resource: Value)
    ensures var r := OutputFilenames(resource);
      r.Ok? ==>
        Get(resource, "output").Ok? && Iterate(Get(resource, "output").value).Ok? &&
        var outputs := Get(resource, "output").value; var keys := Iterate(outputs).value;
        && |r.value| == |keys|
        && (forall i :: 0 <= i < |keys| ==> DownloadUrl(outputs, keys[i]) == Ok(r.value[i]))
        && (outputs.Dict? ==> |r.value| == |outputs.entries|)
  {
    var r := OutputFilenames(resource);
    if r.Ok? {
      var outputs := Get(resource, "output").value;
      var keys := Iterate(outputs).value;
      MapResultShape(keys, DownloadUrlOf(outputs));
      forall i | 0 <= i < |keys|
        ensures DownloadUrl(outputs, keys[i]) == Ok(r.value[i])
      {
        assert DownloadUrlOf(outputs)(keys[i]) == Ok(r.value[i]);
      }
    }
  }

  /** `[on.output_postprocess_execwrapper(f) for (f, on) in zip(outfiles,
      self.outputs)]`: pairs up as many as the shorter list has. */
  function OutputPostprocesses(g: seq<Node>, ids: seq<nat>, files: seq<string>): seq<string>
    requires InRange(g, ids)
  {
    var m := if |files| < |ids| then |files| else |ids|;
    seq(m, i requires 0 <= i < m => OutputPostprocess(g[ids[i]], files[i]))
  }

  /** The key of the `i`-th entry of `files`. */
  function FileKey(i: nat): string
  {
    "in_file_" + NatToString(i)
  }

  /** The entries under the keys `in_file_0`, `in_file_1`, ... */
  function Numbered(es: seq<FileEntry>): (r: seq<(string, FileEntry)>)
    ensures |r| == |es|
  {
    seq(|es|, i requires 0 <= i < |es| => (FileKey(i), es[i]))
  }

  /** `Node.calculation_step(resource)`: the files taken from the context
      (one per input, in order) and the static files, under consecutive
      keys; the command split into program and arguments; the output file
      names; and the postprocessing that stores each output. */
  function CalculationSpec(g: seq<Node>, n: Node, resource: Value): Result<ChainStep>
    requires InRange(g, n.inputs) && InRange(g, n.outputs)
  {
    var files :- InFiles(g, n, resource);
    var command :- Command(resource);
    var outfiles :- OutputFilenames(resource);
    var workflow :- Get(resource, "aiida_plugin");
    if command == [] then Err(IndexError)
    else Ok(Calculation(workflow, command[0], command[1..], files, outfiles,
                        OutputPostprocesses(g, n.outputs, outfiles)))
  }

  /** The `files` mapping of `calculation_step`: the context files of the
      inputs, then the static files, under consecutive keys. */
  function InFiles(g: seq<Node>, n: Node, resource: Value): Result<seq<(string, FileEntry)>>
    requires InRange(g, n.inputs)
  {
    var nodeFiles :- MapResult(Nodes(g, n.inputs), NodeEntryOf(resource));
    var staticFiles :- StaticFiles(resource);
    Ok(Numbered(nodeFiles + staticFiles))
  }

  /** The file keys are `in_file_0`, ..., `in_file_<m-1>`, without gaps, and
      hence distinct. */
  lemma NumberedKeys(es: seq<FileEntry>)
    ensures forall i :: 0 <= i < |es| ==> Numbered(es)[i] == (FileKey(i), es[i])
    ensures Distinct(Keys(Numbered(es)))
  {
    var ks := Keys(Numbered(es));
    forall i, j | 0 <= i < j < |ks|
      ensures ks[i] != ks[j]
    {
      if ks[i] == ks[j] {
        assert "in_file_" + NatToString(i) + [] == "in_file_" + NatToString(j) + [];
        NumberedInjective("in_file_", i, j, []);
      }
    }
  }

  /** The entries after the first `|xs|` are those of `ys`. */
  lemma NumberedTail(xs: seq<FileEntry>, ys: seq<FileEntry>)
    ensures forall i :: |xs| <= i < |xs| + |ys| ==> Numbered(xs + ys)[i].1 == ys[i - |xs|]
  {
  }

  /** `files[f"in_file_{len(files)}"] = e` appends `e` under the next key. */
  lemma NumberedPut(es: seq<FileEntry>, e: FileEntry)
    ensures Put(Numbered(es), FileKey(|es|), e) == Numbered(es + [e])
  {
    NumberedKeys(es + [e]);
    var all := Numbered(es + [e]);
    assert all[..|es|] == Numbered(es);
    assert all[|es|] == (FileKey(|es|), e);
    PutNext(all, |es|, FileKey(|es|), e);
    assert all[..|es| + 1] == all;
  }

  /** Which calculation steps succeed: exactly those whose inputs all have a
      documented file, whose static files, command line, outputs and plugin
      can be read, and whose command line has at least one word. */
  lemma CalculationOk(g: seq<Node>, n: Node, resource: Value)
    requires InRange(g, n.inputs) && InRange(g, n.outputs)
    ensures CalculationSpec(g, n, resource).Ok? <==>
              && (forall i :: 0 <= i < |n.inputs| ==> NodeFilename(g[n.inputs[i]], resource).Ok?)
              && StaticFiles(resource).Ok?
              && Command(resource).Ok? && Command(resource).value != []
              && OutputFilenames(resource).Ok?
              && Get(resource, "aiida_plugin").Ok?
  {
    InFilesOk(g, n, resource);
  }

  /** The files of a calculation can be read exactly when every input has a
      documented file and the static files can be read. */
  lemma InFilesOk(g: seq<Node>, n: Node, resource: Value)
    requires InRange(g, n.inputs)
    ensures InFiles(g, n, resource).Ok? <==>
              && (forall i :: 0 <= i < |n.inputs| ==> NodeFilename(g[n.inputs[i]], resource).Ok?)
              && StaticFiles(resource).Ok?
  {
    var nodes := Nodes(g, n.inputs);
    MapResultShape(nodes, NodeEntryOf(resource));
    forall i | 0 <= i < |nodes|
      ensures NodeEntryOf(resource)(nodes[i]).Ok? <==> NodeFilename(g[n.inputs[i]], resource).Ok?
    {
    }
  }

  /** A command line without any word fails at `pop(0)` once everything
      before it has been read. */
  lemma CalculationEmptyCommand(g: seq<Node>, n: Node, resource: Value)
    requires InRange(g, n.inputs) && InRange(g, n.outputs)
    requires forall i :: 0 <= i < |n.inputs| ==> NodeFilename(g[n.inputs[i]], resource).Ok?
    requires StaticFiles(resource).Ok? && OutputFilenames(resource).Ok? && Get(resource, "aiida_plugin").Ok?
    requires Command(resource) == Ok([])
    ensures CalculationSpec(g, n, resource) == Err(IndexError)
  {
    InFilesOk(g, n, resource);
  }

  /** The files of a calculation are keyed `in_file_0`, `in_file_1`, ...
      without gaps, one per input and per static file. */
  lemma InFilesKeys(g: seq<Node>, n: Node, resource: Value)
    requires InRange(g, n.inputs)
    ensures var r := InFiles(g, n, resource);
      r.Ok? ==>
        && Distinct(Keys(r.value))
        && (forall i :: 0 <= i < |r.value| ==> r.value[i].0 == FileKey(i))
        && StaticFiles(resource).Ok? && |r.value| == |n.inputs| + |StaticFiles(resource).value|
  {
    var r := InFiles(g, n, resource);
    if r.Ok? {
      var nodes := Nodes(g, n.inputs);
      MapResultLength(nodes, NodeEntryOf(resource));
      var nodeFiles := MapResult(nodes, NodeEntryOf(resource)).value;
      NumberedKeys(nodeFiles + StaticFiles(resource).value);
    }
  }

  /** The first files of a calculation are the context files of its inputs,
      in input order. */
  lemma InFilesInputs(g: seq<Node>, n: Node, resource: Value)
    requires InRange(g, n.inputs)
    ensures var r := InFiles(g, n, resource);
      r.Ok? ==>
        forall i :: 0 <= i < |n.inputs| ==>
          && i < |r.value|
          && NodeFilename(g[n.inputs[i]], resource).Ok?
          && r.value[i].1 == NodeFile(NodeFilename(g[n.inputs[i]], resource).value, CtxRef(VarName(g[n.inputs[i]], "input")))
  {
    var r := InFiles(g, n, resource);
    if r.Ok? {
      var nodes := Nodes(g, n.inputs);
      MapResultShape(nodes, NodeEntryOf(resource));
      var nodeFiles := MapResult(nodes, NodeEntryOf(resource)).value;
      var all := nodeFiles + StaticFiles(resource).value;
      NumberedKeys(all);
      forall i | 0 <= i < |n.inputs|
        ensures NodeFilename(g[n.inputs[i]], resource).Ok?
        ensures r.value[i].1 == NodeFile(NodeFilename(g[n.inputs[i]], resource).value, CtxRef(VarName(g[n.inputs[i]], "input")))
      {
        assert NodeEntryOf(resource)(nodes[i]) == Ok(nodeFiles[i]);
        assert all[i] == nodeFiles[i];
      }
    }
  }

  /** The files after those of the inputs are rendered from templates. */
  lemma InFilesTemplates(g: seq<Node>, n: Node, resource: Value)
    requires InRange(g, n.inputs)
    ensures var r := InFiles(g, n, resource);
      r.Ok? ==> forall i :: |n.inputs| <= i < |r.value| ==> r.value[i].1.TemplateFile?
  {
    var r := InFiles(g, n, resource);
    if r.Ok? {
      var nodes := Nodes(g, n.inputs);
      MapResultLength(nodes, NodeEntryOf(resource));
      var nodeFiles := MapResult(nodes, NodeEntryOf(resource)).value;
      var staticFiles := StaticFiles(resource).value;
      StaticFilesTemplates(resource);
      NumberedTail(nodeFiles, staticFiles);
    }
  }

  /** How `calculation_step` lays out `files`: the keys `in_file_0`,
      `in_file_1`, ... without gaps; first one context file per input, in
      input order, named by the input's filename and referring to its `input`
      variable; then the static files, as templates. */
  predicate FilesLaidOut(g: seq<Node>, n: Node, resource: Value, files: seq<(string, FileEntry)>)
    requires InRange(g, n.inputs)
  {
    && Distinct(Keys(files))
    && (forall i :: 0 <= i < |files| ==> files[i].0 == FileKey(i))
    && StaticFiles(resource).Ok? && |files| == |n.inputs| + |StaticFiles(resource).value|
    && (forall i :: 0 <= i < |n.inputs| ==>
          NodeFilename(g[n.inputs[i]], resource).Ok? &&
          files[i].1 == NodeFile(NodeFilename(g[n.inputs[i]], resource).value, CtxRef(VarName(g[n.inputs[i]], "input"))))
    && (forall i :: |n.inputs| <= i < |files| ==> files[i].1.TemplateFile?)
  }

  /** The files of a calculation: the keys `in_file_0`, `in_file_1`, ...
      without gaps; first one context file per input, in input order, then
      the static files. */
  lemma InFilesShape(g: seq<Node>, n: Node, resource: Value)
    requires InRange(g, n.inputs)
    ensures var r := InFiles(g, n, resource);
      r.Ok? ==> FilesLaidOut(g, n, resource, r.value)
  {
    InFilesKeys(g, n, resource);
    InFilesInputs(g, n, resource);
    InFilesTemplates(g, n, resource);
  }

  /** The `files` of a calculation step are laid out as `calculation_step`
      numbers them: its input files in order, then its static files. */
  lemma CalculationFiles(g: seq<Node>, n: Node, resource: Value)
    requires InRange(g, n.inputs) && InRange(g, n.outputs)
    ensures var r := CalculationSpec(g, n, resource);
      r.Ok? ==> FilesLaidOut(g, n, resource, r.value.files)
  {
    var r := CalculationSpec(g, n, resource);
    if r.Ok? {
      var files := InFiles(g, n, resource);
      assert files.Ok? && r.value.files == files.value;
      InFilesShape(g, n, resource);
    }
  }

  /** The command of a calculation is the first word of the command line
      once its backslashes are removed, and the arguments are the other
      words: together they hold all of its non-space characters, in order. */
  lemma CalculationCommand(g: seq<Node>, n: Node, resource: Value)
    requires InRange(g, n.inputs) && InRange(g, n.outputs)
    ensures var r := CalculationSpec(g, n, resource);
      r.Ok? ==>
        Get(resource, "command").Ok? && Get(resource, "command").value.Str? &&
        var line := RemoveChar(Get(resource, "command").value.s, '\\');
        var words := [r.value.command] + r.value.arguments;
        && words == Split(line)
        && r.value.command != []
        && Concat(words) == NonSpace(line)
        && forall w :: w in words ==> '\\' !in w
  {
    var r := CalculationSpec(g, n, resource);
    CalculationWords(g, n, resource);
    CommandWords(resource);
    if r.Ok? {
      assert r.value.command in Command(resource).value;
    }
  }

  /** A calculation's command and arguments are the words of the command
      line, and there is at least one. */
  lemma CalculationWords(g: seq<Node>, n: Node, resource: Value)
    requires InRange(g, n.inputs) && InRange(g, n.outputs)
    ensures var r := CalculationSpec(g, n, resource);
      r.Ok? ==> Command(resource).Ok? && Command(resource).value == [r.value.command] + r.value.arguments
  {
    var r := CalculationSpec(g, n, resource);
    if r.Ok? {
      HeadTail(Command(resource).value);
    }
  }

  /** The outputs of a calculation are the output file names of the
      resource, the workflow is its plugin, and there is one postprocessing
      entry per pair of an output file and an output node. */
  lemma CalculationOutputs(g: seq<Node>, n: Node, resource: Value)
    requires InRange(g, n.inputs) && InRange(g, n.outputs)
    ensures var r := CalculationSpec(g, n, resource);
      r.Ok? ==>
        var c := r.value;
        && OutputFilenames(resource) == Ok(c.outputs)
        && Get(resource, "aiida_plugin") == Ok(c.workflow)
        && |c.outputPostprocess| == (if |c.outputs| < |n.outputs| then |c.outputs| else |n.outputs|)
        && forall i :: 0 <= i < |c.outputPostprocess| ==>
             c.outputPostprocess[i] == OutputPostprocess(g[n.outputs[i]], c.outputs[i])
  {
  }

  /** Appends `entry(x)` for every `x` of `xs` to `files` under the next free
      key `in_file_<len(files)>`; the first exception stops the loop. */
  method PutEach<T>(files: seq<(string, FileEntry)>, ghost done: seq<FileEntry>, xs: seq<T>,
                    entry: T -> Result<FileEntry>) returns (r: Result<seq<(string, FileEntry)>>)
    requires files == Numbered(done)
    ensures r == match MapResult(xs, entry)
                 case Err(e) => Err(e)
                 case Ok(es) => Ok(Numbered(done + es))
  {
    var acc := files;
    ghost var es: seq<FileEntry> := [];
    var i := 0;
    while i < |xs|
      invariant 0 <= i <= |xs|
      invariant MapResult(xs[..i], entry) == Ok(es)
      invariant acc == Numbered(done + es)
    {
      var e := entry(xs[i]);
      MapResultNext(xs, entry, i);
      if e.Err? {
        MapResultStops(xs, entry, i + 1);
        return Err(e.error);
      }
      NumberedPut(done + es, e.value);
      assert done + es + [e.value] == done + (es + [e.value]);
      acc := Put(acc, FileKey(|acc|), e.value);
      es := es + [e.value];
      i := i + 1;
    }
    assert xs[..i] == xs;
    r := Ok(acc);
  }

  /** The two `files` loops of `Node.calculation_step`: one entry per
      input, then one per static file. */
  method FillFiles(g: seq<Node>, n: Node, resource: Value) returns (r: Result<seq<(string, FileEntry)>>)
    requires InRange(g, n.inputs)
    ensures r == InFiles(g, n, resource)
  {
    var inputs := Nodes(g, n.inputs);
    var files :- PutEach([], [], inputs, NodeEntryOf(resource));
    ghost var nodeFiles := MapResult(inputs, NodeEntryOf(resource)).value;
    assert [] + nodeFiles == nodeFiles;
    assert InFiles(g, n, resource) ==
           (var staticFiles :- StaticFiles(resource); Ok(Numbered(nodeFiles + staticFiles)));
    var present :- Contains(resource, Str("files"));
    if present {
      var listed :- Get(resource, "files");
      var items :- Iterate(listed);
      assert StaticFiles(resource) == MapResult(items, TemplateEntryOf());
      r := PutEach(files, nodeFiles, items, TemplateEntryOf());
    } else {
      assert StaticFiles(resource) == Ok([]);
      assert nodeFiles + [] == nodeFiles;
      r := Ok(files);
    }
  }

  /** `Node.calculation_step(resource)`. */
  method CalculationStep(g: seq<Node>, n: Node, resource: Value) returns (r: Result<ChainStep>)
    requires InRange(g, n.inputs) && InRange(g, n.outputs)
    ensures r == CalculationSpec(g, n, resource)
  {
    var files :- FillFiles(g, n, resource);
    var command :- Command(resource);
    var outfiles :- OutputFilenames(resource);
    var workflow :- Get(resource, "aiida_plugin");
    if |command| == 0 {
      return Err(IndexError);
    }
    r := Ok(Calculation(workflow, command[0], command[1..], files, outfiles,
                        OutputPostprocesses(g, n.outputs, outfiles)));
  }
}
