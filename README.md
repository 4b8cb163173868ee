# OntoConv workflow compiler — a Dafny model

OntoConv compiles the nested workflow description produced by an ontology
planner (OntoFlow) into a declarative ExecFlow work chain. It also assembles
OTEAPI data pipelines from partial pipelines documented in a knowledge base.
This project models the core of that compiler and proves properties of the
model:

- `Workflow` (workflow.dfy): the node graph that `Node.__init__` builds
  from the description. Nodes are appended to a shared list, children before
  their parent. `hasOutput` children become producing tools and the other
  children become inputs. The list is modelled as an arena (`NodeArena`)
  whose nodes refer to each other by id. A recursive reference function,
  `Build`, says what the list becomes. Also here: the node queries
  (`var_name`, `step_name`, `is_step`, `is_ctx_node`, `is_dataset`).
- `Iri` (iri.dfy): `Node.suffix`, `Node.kb_suffix`, and the name suffix
  used by `generate_pipeline`.
- `Chain` (chain.dfy): the two kinds of chain step, `Node.pipeline_step`
  and `Node.calculation_step`. Also `Node.filename`, `output_filenames` and
  the postprocessing templates.
- `Ontoflow` (ontoflow.dfy): `parse_ontoflow`. It walks the node list in id
  order and emits a pipeline step and a calculation step for every step
  node, then one final pipeline step for the last step node.
- `Pipelines` (pipelines.dfy): `get_resource_types`, the heuristic that
  classifies a data resource as a source or a sink, and `generate_pipeline`.
- `PyData` (pydata.dfy) and `Text` (text.dfy): supporting modules.
  - `PyData` holds the Python values the code manipulates: dicts as ordered
    association lists, lists, strings, integers and `None`. It also gives
    the exceptions that subscripting, `in`, iteration and `.get` raise.
  - `Text` holds decimal rendering, `str.split()`, `str.replace` on single
    characters and `str.join`.

Python exceptions are values of a `Result` datatype. Each operation
returns either its value or the exception the Python code raises first, in
the order Python evaluates the expressions. Loops that build results step
by step are methods with loop invariants. Each method is proved equal to a
recursive or comprehension-style reference function, and the lemmas state
the properties of those functions.

Three facts about the code that shape the model:

- The chain ends with a final pipeline step after the last step node, so
  one step node yields three chain steps.
- A missing key of a documented resource raises `KeyError`.
- `get_resource_types` looks only at the last item of the list to decide
  the types.

## Model

| member | source | states |
|---|---|---|
| Workflow.NodeArena.constructor | ontoconv/ontoflow.py:228 | the shared node list starts empty |
| Workflow.NodeArena.AddNode | ontoconv/ontoflow.py:23-46 | building a node appends exactly the nodes of `Build(d, old(nodes))` and returns the id of the description's own node, the last one |
| Workflow.NodeArena.AddChildren | ontoconv/ontoflow.py:33-44 | the children loop leaves the list, the consumed ids, the produced type and the producer ids that the reference scan gives |
| Workflow.NodeArena.LinkProducers | ontoconv/ontoflow.py:36-38 | every `hasOutput` child records the parent id as an output; nothing else changes |
| Workflow.BuildRoot | ontoconv/ontoflow.py:23-46 | the entry's node is last; it gets the next id, keeps depth and IRI, takes the output type of its last `hasOutput` child ("dataset" for a leaf), consumes its other children in order, and has no input type and no outputs |
| Workflow.ChildFinal | ontoconv/ontoflow.py:34-44 | each child node lies before its parent, takes the parent IRI as input type unless it is the producing tool, and has the parent as its single output exactly when it is that tool |
| Workflow.GraphShape | ontoconv/ontoflow.py:23-46 | the whole list is well formed: id equals position, inputs precede their consumer, a producer precedes what it produces, and the top entry's node is last |
| Workflow.NoInputsIff | ontoconv/ontoflow.py:39-42 | a node consumes nothing exactly when all its children are `hasOutput` tools |
| Workflow.ChildClassification | ontoconv/ontoflow.py:78-88 | a child node is a step exactly when it is its parent's tool; it is a context node exactly when it is consumed, has an output type and consumes nothing; every consumed leaf is a context dataset |
| Workflow.RootClassification | ontoconv/ontoflow.py:71-80 | a freshly built node is never a step; it is a dataset exactly when it consumes a single child whose output type is "dataset" |
| Workflow.ScanPlaced | ontoconv/ontoflow.py:33-44 | the later rounds of the children loop leave the nodes inside an earlier child's block untouched: only the child's own node is consumed or linked |
| Workflow.BuildPlaced | ontoconv/ontoflow.py:23-46 | every node built for an entry, except the entry's own, is the final node of the child entry its role names: depth, IRI, resource type, no inputs exactly when all its children are tools, one output exactly when it is its parent's `hasOutput` tool |
| Workflow.GraphPlaced | ontoconv/ontoflow.py:228-231 | in the whole node list the top entry's node is last and every other node is placed as the child entry its role names |
| Workflow.GraphClassification | ontoconv/ontoflow.py:77-88 | every node of the whole list, at any depth, is a step exactly when it stands for a `hasOutput` child, and a context node exactly when it stands for a consumed child with an output type whose own children are all tools; consumed leaves are context datasets |
| Workflow.VarNameInjective | ontoconv/ontoflow.py:63-65 | variable names of different nodes or data types differ |
| Workflow.StepNameInjective | ontoconv/ontoflow.py:67-69 | step names of different nodes differ |
| Iri.Suffix | ontoconv/ontoflow.py:90-98 | the result is a tail of the IRI; with a `#` it follows the first `#`; otherwise it contains no `/` and follows the last `/` or is the whole IRI |
| Iri.KbSuffixShape | ontoconv/ontoflow.py:100-104 | the text after the last `/`, character by character, with every `#` as `:`; the result has neither `#` nor `/` |
| Text.RemoveCharCounts | ontoconv/ontoflow.py:176 | removing backslashes from the command line drops every backslash and keeps each other character as often as it occurs |
| Text.RemoveCharAppend | ontoconv/ontoflow.py:176 | backslash removal works piece by piece, so the kept characters stay in their order |
| Text.SplitKeepsNonSpace | ontoconv/ontoflow.py:176 | the words of `split()` hold all non-space characters of the line, in order |
| Text.JoinConcat | ontoconv/pipelines.py:157 | joining a concatenation is joining each part with one separator between them |
| Chain.CtxNamesMembers | ontoconv/ontoflow.py:137-145 | `to_cuds` names exactly the output variables of the context nodes among the listed nodes |
| Chain.CtxNamesDistinct | ontoconv/ontoflow.py:137-145 | on a well-formed list the `to_cuds` names are distinct |
| Chain.HeadKeys | ontoconv/ontoflow.py:130-148 | the fixed keys are distinct; `from_cuds` is present exactly when the step is not final, `to_cuds` exactly when some variable is exposed |
| Chain.PipelineInputsDistinct | ontoconv/ontoflow.py:130-150 | no exposed variable overwrites a fixed key, so the `inputs` keys are distinct |
| Chain.PipelineInputsLookup | ontoconv/ontoflow.py:130-150 | each key of `inputs` finds the pipeline file reference, `"pipe"`, the input names (not final), the exposed names, and each exposed variable's context reference |
| Chain.PutCtxEntries | ontoconv/ontoflow.py:149-150 | assigning each exposed name appends its context reference, in order |
| Chain.PipelineStep | ontoconv/ontoflow.py:127-156 | the step built by dictionary assignments equals the reference step: the fixed entries, the context references, and the input postprocessing unless final |
| Chain.NodeFilenameCases | ontoconv/ontoflow.py:106-110 | a non-mapping resource raises `TypeError`, a missing `input` raises `KeyError`, an empty function list raises `IndexError`, otherwise the last function's location is used |
| Chain.StaticFilesTemplates | ontoconv/ontoflow.py:170-175 | without `files` there are no static files; every static file is rendered from a template |
| Chain.CommandWords | ontoconv/ontoflow.py:176 | reading the command fails exactly when it is missing or not a string; its words keep every non-space character in order and hold no backslash |
| Chain.OutputFilenamesPerKey | ontoconv/ontoflow.py:194-199 | one download URL per entry of `output`, in order; one per key for a mapping |
| Chain.NumberedKeys | ontoconv/ontoflow.py:165-172 | the file keys are `in_file_0`, `in_file_1`, ... without gaps, hence distinct |
| Chain.NumberedPut | ontoconv/ontoflow.py:165-172 | assigning under `in_file_<len(files)>` appends under the next key |
| Chain.PutEach | ontoconv/ontoflow.py:163-175 | each `files` loop appends one numbered entry per item, or raises the first item's exception |
| Chain.FillFiles | ontoconv/ontoflow.py:161-175 | the two `files` loops produce the input files, then the static files, numbered consecutively |
| Chain.InFilesShape | ontoconv/ontoflow.py:161-175 | keys are consecutive; the first entries are one context file per input, in order, with its file name and context variable; the rest are template files |
| Chain.InFilesOk | ontoconv/ontoflow.py:161-175 | the files of a calculation can be read exactly when every input has a file name and the static files can be read |
| Chain.CalculationOk | ontoconv/ontoflow.py:158-191 | a calculation step succeeds exactly when every input has a file name, static files, command, outputs and plugin can be read, and the command has a word |
| Chain.CalculationEmptyCommand | ontoconv/ontoflow.py:182 | a command without words raises `IndexError` at `pop(0)` once everything else was read |
| Chain.CalculationFiles | ontoconv/ontoflow.py:161-184 | the `files` of a successful calculation step have distinct keys `in_file_0`, `in_file_1`, ... without gaps; the first are one context file per input node, in order, with its file name and its `input` variable; the rest are the static template files |
| Chain.CalculationCommand | ontoconv/ontoflow.py:176-183 | command plus arguments are the words of the backslash-free line: a non-empty first word, all non-space characters, no backslash |
| Chain.CalculationOutputs | ontoconv/ontoflow.py:177-190 | the outputs are the output file names, the workflow is the plugin, and the postprocessing pairs output files with output nodes up to the shorter list |
| Chain.CalculationStep | ontoconv/ontoflow.py:158-191 | the method equals the reference calculation step, errors included |
| Ontoflow.PipelineFilesDistinct | ontoconv/ontoflow.py:241-255 | the numbered pipeline files `pipeline_<i>.yaml` differ for different steps and never equal `pipeline_final.yaml` |
| Ontoflow.StepIdsFacts | ontoconv/ontoflow.py:238-239 | the visited step ids are increasing and are exactly the ids of the step nodes |
| Ontoflow.StepIdsAreTools | ontoconv/ontoflow.py:231-239 | on the node list of a description, the step nodes the loop visits are, in id order, exactly the nodes standing for `hasOutput` children |
| Ontoflow.CompilerSteps | ontoconv/ontoflow.py:240-259 | each step node is compiled with its own pipeline step, its calculation on the loaded resource (or the exception raised loading it), and the pipelines generated for its inputs or, at the end, its outputs |
| Ontoflow.ChainUpToStops | ontoconv/ontoflow.py:238-249 | after a failing step node the loop never recovers |
| Ontoflow.ChainUpToCounts | ontoconv/ontoflow.py:238-249 | after the first `m` nodes: two steps and one pipeline per step node; `istep` counts the step nodes and `last` is the last of them |
| Ontoflow.ChainUpToAt | ontoconv/ontoflow.py:240-249 | the `i`-th step node in id order has its pipeline step reading `pipeline_<i>.yaml` at position `2i`, its calculation step right after it, and the `i`-th pipeline, the document generated for it |
| Ontoflow.ChainUpToOk | ontoconv/ontoflow.py:238-249 | the loop succeeds exactly when every step node compiles: its pipeline is generated and its calculation step (resource loading included) succeeds |
| Ontoflow.ChainUpToError | ontoconv/ontoflow.py:238-249 | a failing loop raises the exception of the first step node in id order that does not compile, its pipeline's exception before its calculation's, and every earlier step node compiles |
| Ontoflow.ParseShape | ontoconv/ontoflow.py:233-259 | the chain is two steps per step node plus one final step for the last one (nothing without step nodes); pipelines are numbered in order, then `pipeline_final.yaml`; it fails exactly when some step node does not compile or the final pipeline cannot be generated |
| Ontoflow.CompilerAgrees | ontoconv/ontoflow.py:240-249 | bridge for the methods: on a well-formed list the concrete step compiler meets the agreement `VisitAll` assumes (the property itself is `CompilerSteps`) |
| Ontoflow.GenerateFor | ontoconv/ontoflow.py:240 | the pipeline generated for a step node's inputs, or the exception raised generating it, is that of the step compiler |
| Ontoflow.PipelineStepFor | ontoconv/ontoflow.py:244 | the pipeline step of a step node is that of the step compiler |
| Ontoflow.CompileCalculation | ontoconv/ontoflow.py:246-247 | the calculation step of a step node on its loaded resource, or the exception raised loading it, is that of the step compiler |
| Ontoflow.VisitStep | ontoconv/ontoflow.py:239-249 | one loop pass over a step node (generate, then pipeline step, then load and calculation step) equals the reference pass of any agreeing step compiler |
| Ontoflow.VisitAll | ontoconv/ontoflow.py:238-249 | the loop over all nodes equals the reference run of any agreeing step compiler, stopping at the first failure |
| Ontoflow.ParseOntoflow | ontoconv/ontoflow.py:208-262 | building the arena in place, visiting every node and adding the final step equals the reference result |
| Pipelines.AnyInCases | ontoconv/pipelines.py:62 | `any(iri in types ...)` is list membership for a list, key membership for a mapping, and raises `TypeError` for a scalar |
| Pipelines.ResourceTypesRejects | ontoconv/pipelines.py:40-50 | a non-list raises `TypeError`; an empty list leaves `dataresource` unbound (read off the reference; `GetResourceTypes` is proved equal to it) |
| Pipelines.LastItemDecides | ontoconv/pipelines.py:44-48 | only the last item of the list decides the types |
| Pipelines.ResourceTypesMarked | ontoconv/pipelines.py:50-66 | whenever types are returned, one of the four source or sink IRIs is among them |
| Pipelines.ResourceTypesOfList | ontoconv/pipelines.py:50-63 | declared types come back unchanged when one of the four IRIs is declared, otherwise `DataSource` is appended |
| Pipelines.ResourceTypesOfString | ontoconv/pipelines.py:51-63 | a single declared type is wrapped in a list and followed by `DataSource` unless it is one of the four IRIs |
| Pipelines.ResourceTypesOfEmpty | ontoconv/pipelines.py:44-66 | a last item that is not a mapping, lacks `dataresource` or has an empty one makes the resource exactly `[DataSink]` |
| Pipelines.GetResourceTypes | ontoconv/pipelines.py:27-68 | the method equals the reference classification, exceptions included |
| Pipelines.LoadedCases | ontoconv/pipelines.py:145-147 | a failed load is the step's one raised item; a list resource gives one strategy per element; any other non-iterable resource raises `TypeError`; a mapping or string resource yields keys or characters, none of them a mapping |
| Pipelines.TaggedAllAppend | ontoconv/pipelines.py:140-147 | the strategies of a concatenation of steps are those of each part |
| Pipelines.StrategyEntryShape | ontoconv/pipelines.py:148-151 | the name is `<suffix>_<stype>`; the entry maps each key of `conf` to its value and `stype` to the name unless `conf` sets it; a non-mapping `conf` raises `TypeError` |
| Pipelines.LastBindingStops | ontoconv/pipelines.py:148-151 | once an item raises, the rest of the mapping is not bound |
| Pipelines.LastBindingCases | ontoconv/pipelines.py:148-151 | the binding loop succeeds exactly when every item does and then leaves the last item's binding (the previous one for an empty mapping); otherwise it raises the first failing item's exception |
| Pipelines.BuildAllStops | ontoconv/pipelines.py:147-153 | once a strategy fails, every longer run fails the same way |
| Pipelines.BuildAllShape | ontoconv/pipelines.py:147-153 | on success every strategy is a mapping, with one name and one entry per strategy mapping, in order, from its last item or, for an empty mapping, repeated from the one before |
| Pipelines.BuildAllOk | ontoconv/pipelines.py:147-153 | the strategies compile exactly when every one is a mapping (no raised load, no value without `items`), every item does, and the first mapping is not empty |
| Pipelines.EntriesOk | ontoconv/pipelines.py:147-153 | `generate_pipeline`'s loop succeeds exactly when every strategy and every configuration is a mapping and the first strategy mapping is not empty |
| Pipelines.BuildAllRaises | ontoconv/pipelines.py:145-148 | after a successful prefix, the first strategy that is not a mapping ends the run with `AttributeError`, or with the load's or iteration's own exception for a raised item |
| Pipelines.BuildAllPrefix | ontoconv/pipelines.py:138-153 | a longer run keeps the names and entries of a shorter one as a prefix |
| Pipelines.AddAllStops | ontoconv/pipelines.py:147-153 | once a strategy of a resource fails, the rest of it is skipped |
| Pipelines.BuildStepsStops | ontoconv/pipelines.py:140-153 | once a step fails, the remaining steps are skipped |
| Pipelines.LoadRaises | ontoconv/pipelines.py:145-147 | after successful earlier steps, a failed `load_container` raises its exception and a non-iterable resource raises `TypeError` |
| Pipelines.AddAllFlat | ontoconv/pipelines.py:147-153 | the loop over one resource continues the flat run with that resource's strategies |
| Pipelines.BuildStepsFlat | ontoconv/pipelines.py:140-153 | the nested loops are one loop over every strategy of every step, in order, where a step whose resource fails to load or iterate contributes one raised item |
| Pipelines.DocumentShape | ontoconv/pipelines.py:154-158 | the document holds version 1, the strategy entries in order, and the pipe that joins the names with `" | "` |
| Pipelines.GeneratePipelineShape | ontoconv/pipelines.py:123-158 | the function either raises the loop's exception or returns the document, with one name and one entry per strategy mapping |
| Pipelines.PipeExtends | ontoconv/pipelines.py:157 | the pipe of a longer run begins with the pipe of a shorter one, followed by `" | "` and the later names |
| Pipelines.BindItems | ontoconv/pipelines.py:148-151 | the innermost loop equals the reference binding |
| Pipelines.AddOne | ontoconv/pipelines.py:147-153 | one strategy appends its binding; a raised item raises its exception, a non-mapping strategy `AttributeError`, and `UnboundLocalError` is raised when nothing was ever bound |
| Pipelines.AddResource | ontoconv/pipelines.py:147-153 | the strategies loop over one resource equals the reference run |
| Pipelines.CollectStrategies | ontoconv/pipelines.py:138-153 | the two outer loops, loads and iteration of each resource included, equal the reference run over all steps |
| Pipelines.GeneratePipeline | ontoconv/pipelines.py:123-158 | the method equals the reference pipeline document, exceptions included |

## Left out

- File output is not modelled: `save_pipeline`, the writing of `workchain.yaml`, YAML serialisation and `print`. The pipelines `parse_ontoflow` saves are returned with their file names instead.
- `generate_ontoflow_pipeline` and `load_simulation_resource` are not part of this model. `parse_ontoflow` imports them but the pipelines module does not define them. They become the parameters `generate` and `load` of `Ontoflow.ParseOntoflow`, each returning a value or an exception. `generate` receives the whole node list and the ids of the nodes, so it can follow their edges. `target_kb` is folded into `generate`'s final flag.
- `load_container` and the triplestore become the parameter `load` of `Pipelines.GeneratePipeline`. For an IRI it returns the documented resource or the exception raised loading it. What it reads from the triplestore, and `recognised_keys="basic"`, are not modelled.
- `populate_triplestore`, `get_simulation_info`, `get_data`, `RECOGNISED_KEYS`, `attrdict` and `Node.__str__` are not modelled.
- Object identity is not modelled: nodes refer to each other by id in the arena. The parent is appended to a producer's `outputs` after the children loop, with the same final result.
- Chain steps are the `ChainStep` datatype rather than dicts. The constant keys `workflow`, `inputs` and `postprocess`, and the pipeline workflow name `execflow.oteapipipeline`, are implicit in its constructors.
- The description's `depth`, `iri` and `predicate` keys are assumed present; a missing one would raise `KeyError` in the source. Likewise `children`, when present, is assumed to be a list.
- `Pipelines.AnyInCases`: `Contains` compares values structurally, so `Int(1)` is not found in `[Bool(true)]`, where Python's `1 == True` would find it; floats are not modelled. The lemma's conclusion is unaffected, because `AnyIn` only ever looks for `Str` needles, and a string equals only a string in Python as well.
- `Pipelines.GetResourceTypes`: when the declared `type` entry is a list, the source binds that very list (ontoconv/pipelines.py:51) and appends `DataSource` to it in place (ontoconv/pipelines.py:63), so the caller's resource changes too. The model returns a new list and leaves the resource as it was; no later step of the core reads the changed resource.
- `Pipelines.StrategyEntryShape`: a non-mapping `conf` is collapsed to `TypeError`. `dict.update` would also accept an iterable of pairs, or raise `ValueError`.
- Strings formatted with `str()` or an f-string (`Format`, `Repr`) render nested values in a simplified form.
- `Pipelines.DataSource` and `Pipelines.DataSink` spell out `OTEIO.DataSource` and `OTEIO.DataSink` in the namespace `http://emmo.info/oteio#`. The namespace comes from the `tripper` library, which is not part of this model.
