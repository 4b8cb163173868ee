/** `get_resource_types` and `generate_pipeline` (ontoconv/pipelines.py): the
    heuristic that classifies a documented data resource as a data source or
    a data sink, and the assembly of an ExecFlow pipeline document from the
    partial pipelines documented for a sequence of IRIs.

    The knowledge base is reached only through `load_container`, which here
    is the parameter `load`: for an IRI, the documented resource, or the
    exception raised loading it. The resource is expected to be a list of
    strategy mappings, each from a strategy type to its configuration; any
    other value raises where Python would. */
module Pipelines {
  import opened Text
  import opened PyData
  import opened Iri

  /** `OTEIO.DataSource` and `OTEIO.DataSink`, in the namespace
      `http://emmo.info/oteio#`. */
  const DataSource: string := "http://emmo.info/oteio#DataSource"
  const DataSink: string := "http://emmo.info/oteio#DataSink"

  /** The four IRIs that mark a resource as explicitly typed, in the order
      they are tried. */
  const ResourceTypeIris: seq<string> := [DataSource, DataSink, "oteio:DataSource", "oteio:DataSink"]

  // ---------------------------------------------------------------------
  // get_resource_types
  // ---------------------------------------------------------------------

  /** The `dataresource` a list item leaves behind: a mapping's
      `"dataresource"` entry (`{}` when it has none), and `{}` for anything
      else. */
  function DataResourceOf(item: Value): Value
  {
    if item.Dict? then
      match Lookup(item.entries, "dataresource")
      case Some(v) => v
      case None => Dict([])
    else Dict([])
  }

  /** `any(iri in types for iri in iris)`: the tests run in order, the first
      hit ends them, and the first test that raises ends them with its
      exception. */
  function AnyIn(types: Value, iris: seq<string>): Result<bool>
  {
    if iris == [] then Ok(false)
    else
      var found :- Contains(types, Str(iris[0]));
      if found then Ok(true) else AnyIn(types, iris[1..])
  }

  /** On a list the test asks whether some IRI is an item, on a mapping
      whether some IRI is a key; on a scalar the first test raises
      `TypeError`. */
  lemma {:induction false} AnyInCases(types: Value, iris: seq<string>)
    ensures types.List? ==> AnyIn(types, iris) == Ok(exists i :: 0 <= i < |iris| && Str(iris[i]) in types.items)
    ensures types.Dict? ==> AnyIn(types, iris) == Ok(exists i :: 0 <= i < |iris| && iris[i] in Keys(types.entries))
    ensures (types.Null? || types.Bool? || types.Int?) && iris != [] ==> AnyIn(types, iris) == Err(TypeError)
    decreases |iris|
  {
    if iris != [] {
      AnyInCases(types, iris[1..]);
      if types.List? || types.Dict? {
        forall i | 0 <= i < |iris[1..]| ensures iris[1..][i] == iris[i + 1] {}
        forall i | 1 <= i < |iris| ensures iris[i] == iris[1..][i - 1] {}
      }
    }
  }

  /** The types declared by a non-empty `dataresource`: its `"type"` entry
      (no entry counts as an empty list), a single string wrapped in a
      list. */
  function DeclaredTypes(dataresource: Entries): Value
  {
    var declared := match Lookup(dataresource, "type") case Some(t) => t case None => List([]);
    if declared.Str? then List([declared]) else declared
  }

  /** The resource types decided by the `dataresource` of the last item: a
      data sink when it is empty; otherwise its declared types, with
      `DataSource` appended unless one of the four type IRIs is declared. A
      non-mapping `dataresource` has no `get`, and a mapping of types has no
      `append`. */
  function TypesOf(dataresource: Value): Result<Value>
  {
    if !Truthy(dataresource) then Ok(List([Str(DataSink)]))
    else if !dataresource.Dict? then Err(AttributeError)
    else
      var types := DeclaredTypes(dataresource.entries);
      var found :- AnyIn(types, ResourceTypeIris);
      if found then Ok(types)
      else if types.List? then Ok(List(types.items + [Str(DataSource)]))
      else Err(AttributeError)
  }

  /** `get_resource_types(resource)`: only a list is accepted (a string or a
      mapping is not a list of configurations), an empty list never binds
      `dataresource`, and the last item decides. */
  function ResourceTypes(resource: Value): Result<Value>
  {
    if !resource.List? then Err(TypeError)
    else if resource.items == [] then Err(UnboundLocalError)
    else TypesOf(DataResourceOf(resource.items[|resource.items| - 1]))
  }

  /** A string, a mapping or a scalar is rejected with `TypeError`; an empty
      list fails because `dataresource` is never bound. This only reads the
      error branches off the reference `ResourceTypes`; the loop of
      `GetResourceTypes` is proved equal to it. */
  lemma ResourceTypesRejects(resource: Value)
    ensures !resource.List? ==> ResourceTypes(resource) == Err(TypeError)
    ensures resource == List([]) ==> ResourceTypes(resource) == Err(UnboundLocalError)
  {
  }

  /** Only the last item counts: two lists ending in the same item have the
      same types, whatever comes before. */
  lemma LastItemDecides(xs: seq<Value>, ys: seq<Value>, item: Value)
    ensures ResourceTypes(List(xs + [item])) == ResourceTypes(List(ys + [item]))
  {
    assert (xs + [item])[|xs|] == item && (ys + [item])[|ys|] == item;
  }

  /** Whenever the types are computed, one of the four type IRIs is among
      them: a resource is always a source or a sink. */
  lemma ResourceTypesMarked(resource: Value)
    requires ResourceTypes(resource).Ok?
    ensures exists i :: 0 <= i < |ResourceTypeIris| && Contains(ResourceTypes(resource).value, Str(ResourceTypeIris[i])) == Ok(true)
  {
    var items := resource.items;
    var dataresource := DataResourceOf(items[|items| - 1]);
    var r := ResourceTypes(resource).value;
    if !Truthy(dataresource) {
      assert Contains(r, Str(ResourceTypeIris[1])) == Ok(true);
    } else {
      var types := DeclaredTypes(dataresource.entries);
      AnyInCases(types, ResourceTypeIris);
      if r == types {
        var i :| 0 <= i < |ResourceTypeIris| &&
                 ((types.List? && Str(ResourceTypeIris[i]) in types.items) ||
                  (types.Dict? && ResourceTypeIris[i] in Keys(types.entries)));
        assert Contains(r, Str(ResourceTypeIris[i])) == Ok(true);
      } else {
        assert r.items[|r.items| - 1] == Str(ResourceTypeIris[0]);
        assert Contains(r, Str(ResourceTypeIris[0])) == Ok(true);
      }
    }
  }

  /** With a non-empty `dataresource` declaring a list of types (or none):
      `DataSource` is appended exactly when none of the four type IRIs is
      declared, and a list that already declares one comes back unchanged. */
  lemma ResourceTypesOfList(resource: Value)
    requires resource.List? && resource.items != []
    requires var dr := DataResourceOf(resource.items[|resource.items| - 1]);
      Truthy(dr) && dr.Dict? && DeclaredTypes(dr.entries).List?
    ensures var types := DeclaredTypes(DataResourceOf(resource.items[|resource.items| - 1]).entries).items;
      ResourceTypes(resource) ==
        if exists i :: 0 <= i < |ResourceTypeIris| && Str(ResourceTypeIris[i]) in types
        then Ok(List(types))
        else Ok(List(types + [Str(DataSource)]))
  {
    var dr := DataResourceOf(resource.items[|resource.items| - 1]);
    AnyInCases(DeclaredTypes(dr.entries), ResourceTypeIris);
  }

  /** A single declared type string is wrapped in a list, and `DataSource`
      follows it unless it is one of the four type IRIs. */
  lemma ResourceTypesOfString(resource: Value, t: string)
    requires resource.List? && resource.items != []
    requires var dr := DataResourceOf(resource.items[|resource.items| - 1]);
      dr.Dict? && Lookup(dr.entries, "type") == Some(Str(t))
    ensures ResourceTypes(resource) ==
      if t in ResourceTypeIris then Ok(List([Str(t)])) else Ok(List([Str(t), Str(DataSource)]))
  {
    var dr := DataResourceOf(resource.items[|resource.items| - 1]);
    assert dr.entries != [] by {
      LookupKeys(dr.entries, "type");
    }
    assert DeclaredTypes(dr.entries) == List([Str(t)]);
    AnyInCases(List([Str(t)]), ResourceTypeIris);
    if t in ResourceTypeIris {
      var i :| 0 <= i < |ResourceTypeIris| && ResourceTypeIris[i] == t;
      assert Str(ResourceTypeIris[i]) in [Str(t)];
    } else {
      forall i | 0 <= i < |ResourceTypeIris|
        ensures Str(ResourceTypeIris[i]) !in [Str(t)]
      {
        assert ResourceTypeIris[i] in ResourceTypeIris;
      }
      assert [Str(t)] + [Str(DataSource)] == [Str(t), Str(DataSource)];
    }
  }

  /** A last item that is not a mapping, has no `dataresource` entry, or
      has an empty one, makes the resource exactly a data sink. */
  lemma ResourceTypesOfEmpty(resource: Value)
    requires resource.List? && resource.items != []
    ensures var last := resource.items[|resource.items| - 1];
      && (!Truthy(DataResourceOf(last)) ==> ResourceTypes(resource) == Ok(List([Str(DataSink)])))
      && (!last.Dict? ==> ResourceTypes(resource) == Ok(List([Str(DataSink)])))
      && (last.Dict? && Lookup(last.entries, "dataresource") == None ==>
            ResourceTypes(resource) == Ok(List([Str(DataSink)])))
  {
  }

  /** `get_resource_types(resource)`. */
  method GetResourceTypes(resource: Value) returns (r: Result<Value>)
    ensures r == ResourceTypes(resource)
  {
    if resource.Str? || !resource.List? {
      return Err(TypeError);
    }
    var dataresource: Option<Value> := None;
    var i := 0;
    while i < |resource.items|
      invariant 0 <= i <= |resource.items|
      invariant dataresource == if i == 0 then None else Some(DataResourceOf(resource.items[i - 1]))
    {
      var item := resource.items[i];
      if item.Dict? {
        dataresource := Some(match Lookup(item.entries, "dataresource") case Some(v) => v case None => Dict([]));
      } else {
        dataresource := Some(Dict([]));
      }
      i := i + 1;
    }
    if dataresource.None? {
      return Err(UnboundLocalError);
    }
    var types: Value;
    if Truthy(dataresource.value) {
      if !dataresource.value.Dict? {
        return Err(AttributeError);
      }
      types := match Lookup(dataresource.value.entries, "type") case Some(t) => t case None => List([]);
      if types.Str? {
        types := List([types]);
      }
      var found :- AnyIn(types, ResourceTypeIris);
      if !found {
        if !types.List? {
          return Err(AttributeError);
        }
        types := List(types.items + [Str(DataSource)]);
      }
    } else {
      types := List([Str(DataSink)]);
    }
    r := Ok(types);
  }

  // ---------------------------------------------------------------------
  // generate_pipeline
  // ---------------------------------------------------------------------

  /** One strategy of a loaded resource, with the name suffix of the IRI
      it was loaded for, or the exception raised when a step's resource
      could not be loaded or iterated. */
  datatype Tagged =
    | Tagged(suffix: string, strategy: Value)
    | Raised(error: Error)

  /** `strategy.items()` succeeds: the strategy is a mapping. */
  predicate IsMapping(t: Tagged)
  {
    t.Tagged? && t.strategy.Dict?
  }

  /** The items of a mapping strategy; none for anything else. */
  function Items(t: Tagged): Entries
  {
    if IsMapping(t) then t.strategy.entries else []
  }

  /** The strategies of one loaded resource, tagged with `suffix`. */
  function TagAll(suffix: string, resource: seq<Value>): (r: seq<Tagged>)
    ensures |r| == |resource|
    ensures forall i :: 0 <= i < |resource| ==> r[i] == Tagged(suffix, resource[i])
  {
    seq(|resource|, i requires 0 <= i < |resource| => Tagged(suffix, resource[i]))
  }

  /** `resource = load_container(ts, step)` and `for strategy in resource`:
      the strategies of one step tagged with its name suffix (`Iri.Suffix`:
      the text after the first `#`, or else after the last `/`), or the one
      exception raised by the load or by iterating the resource. */
  function Loaded(step: string, load: string -> Result<Value>): seq<Tagged>
  {
    match load(step)
    case Err(e) => [Raised(e)]
    case Ok(resource) =>
      match Iterate(resource)
      case Err(e) => [Raised(e)]
      case Ok(items) => TagAll(Suffix(step), items)
  }

  /** A failed load is one raised item; a list resource gives one strategy
      per element; a non-iterable one raises `TypeError`; a mapping or a
      string yields its keys or characters as strategies, none of which is
      a mapping. */
  lemma LoadedCases(step: string, load: string -> Result<Value>)
    ensures load(step).Err? ==> Loaded(step, load) == [Raised(load(step).error)]
    ensures load(step).Ok? && load(step).value.List? ==>
      Loaded(step, load) == TagAll(Suffix(step), load(step).value.items)
    ensures load(step).Ok? && !load(step).value.List? && !load(step).value.Dict? && !load(step).value.Str? ==>
      Loaded(step, load) == [Raised(TypeError)]
    ensures load(step).Ok? && (load(step).value.Dict? || load(step).value.Str?) ==>
      forall i :: 0 <= i < |Loaded(step, load)| ==> !IsMapping(Loaded(step, load)[i])
  {
  }

  /** Every strategy of every step, in step order. */
  function TaggedAll(steps: seq<string>, load: string -> Result<Value>): seq<Tagged>
    decreases |steps|
  {
    if steps == [] then []
    else
      var last := steps[|steps| - 1];
      TaggedAll(steps[..|steps| - 1], load) + Loaded(last, load)
  }

  /** The strategies of a concatenation of steps are those of each part. */
  lemma {:induction false} TaggedAllAppend(xs: seq<string>, ys: seq<string>, load: string -> Result<Value>)
    ensures TaggedAll(xs + ys, load) == TaggedAll(xs, load) + TaggedAll(ys, load)
    decreases |ys|
  {
    if ys == [] {
      assert xs + ys == xs;
    } else {
      var init := ys[..|ys| - 1];
      var last := ys[|ys| - 1];
      assert (xs + ys)[..|xs + ys| - 1] == xs + init;
      assert (xs + ys)[|xs + ys| - 1] == last;
      var tail := Loaded(last, load);
      calc {
        TaggedAll(xs + ys, load);
        TaggedAll(xs + init, load) + tail;
        { TaggedAllAppend(xs, init, load); }
        TaggedAll(xs, load) + TaggedAll(init, load) + tail;
        { AppendAssoc(TaggedAll(xs, load), TaggedAll(init, load), tail); }
        TaggedAll(xs, load) + (TaggedAll(init, load) + tail);
      }
    }
  }

  /** `name = f"{name_suffix}_{stype}"; d = {stype: name}; d.update(conf)`:
      the name and the strategy entry built from one item of a strategy
      mapping. Only a mapping `conf` is accepted. */
  function StrategyEntry(suffix: string, stype: string, conf: Value): Result<(string, Entries)>
  {
    var name := suffix + "_" + stype;
    if conf.Dict? then Ok((name, Update([(stype, Str(name))], conf.entries))) else Err(TypeError)
  }

  /** The name is `<suffix>_<stype>`; the entry maps every key of `conf` to
      its value in `conf`, and `stype` to the name unless `conf` sets it; a
      configuration that is not a mapping raises `TypeError`. */
  lemma StrategyEntryShape(suffix: string, stype: string, conf: Value, k: string)
    ensures StrategyEntry(suffix, stype, conf).Ok? <==> conf.Dict?
    ensures !conf.Dict? ==> StrategyEntry(suffix, stype, conf) == Err(TypeError)
    ensures conf.Dict? && Distinct(Keys(conf.entries)) ==>
      var e := StrategyEntry(suffix, stype, conf).value;
      && e.0 == suffix + "_" + stype
      && Lookup(e.1, k) ==
           if k in Keys(conf.entries) then Lookup(conf.entries, k)
           else if k == stype then Some(Str(suffix + "_" + stype))
           else None
  {
    if conf.Dict? && Distinct(Keys(conf.entries)) {
      UpdateLookup([(stype, Str(suffix + "_" + stype))], conf.entries, k);
    }
  }

  /** How one item `(stype, conf)` of a strategy mapping is turned into a
      name and a strategy entry, given the name suffix of its step. The
      loop below is stated for any such function; `generate_pipeline` uses
      `StrategyEntry`. */
  type Maker = (string, string, Value) -> Result<(string, Entries)>

  function TheMaker(): Maker
  {
    (suffix: string, stype: string, conf: Value) => StrategyEntry(suffix, stype, conf)
  }

  /** The loop state of `generate_pipeline`: the names and strategy entries
      so far, and the last bound `(name, d)`. */
  datatype Built = Built(names: seq<string>, strategies: seq<Entries>, current: Option<(string, Entries)>)

  /** The binding that `for stype, conf in strategy.items()` leaves: that of
      the last item, or the previous one when the mapping is empty; the
      items are bound in order and the first that raises ends the loop. */
  function LastBinding(make: Maker, suffix: string, strategy: Entries, current: Option<(string, Entries)>)
    : Result<Option<(string, Entries)>>
    decreases |strategy|
  {
    if strategy == [] then Ok(current)
    else
      var _ :- LastBinding(make, suffix, strategy[..|strategy| - 1], current);
      var item := strategy[|strategy| - 1];
      var e :- make(suffix, item.0, item.1);
      Ok(Some(e))
  }

  /** Once an item raises, the rest of the mapping is never bound. */
  lemma {:induction false} LastBindingStops(make: Maker, suffix: string, strategy: Entries, k: nat, current: Option<(string, Entries)>)
    requires k <= |strategy| && LastBinding(make, suffix, strategy[..k], current).Err?
    ensures LastBinding(make, suffix, strategy, current) == LastBinding(make, suffix, strategy[..k], current)
    decreases |strategy| - k
  {
    if k < |strategy| {
      assert strategy[..k + 1][..k] == strategy[..k];
      LastBindingStops(make, suffix, strategy, k + 1, current);
    } else {
      assert strategy[..k] == strategy;
    }
  }

  /** The binding loop succeeds when every item does, and then leaves the
      binding of the last item, or the previous binding for an empty
      mapping; otherwise it raises the exception of its first failing item. */
  lemma {:induction false} LastBindingCases(make: Maker, suffix: string, strategy: Entries, current: Option<(string, Entries)>)
    ensures var r := LastBinding(make, suffix, strategy, current);
      && (r.Ok? <==> forall j :: 0 <= j < |strategy| ==> make(suffix, strategy[j].0, strategy[j].1).Ok?)
      && (r.Ok? && strategy == [] ==> r.value == current)
      && (r.Ok? && strategy != [] ==>
            var item := strategy[|strategy| - 1];
            make(suffix, item.0, item.1) == Ok(r.value.value))
      && (r.Err? ==> exists j :: 0 <= j < |strategy| && make(suffix, strategy[j].0, strategy[j].1) == Err(r.error) &&
                                 forall i :: 0 <= i < j ==> make(suffix, strategy[i].0, strategy[i].1).Ok?)
    decreases |strategy|
  {
    if strategy != [] {
      var init := strategy[..|strategy| - 1];
      LastBindingCases(make, suffix, init, current);
      assert forall j :: 0 <= j < |init| ==> init[j] == strategy[j];
    }
  }

  /** One strategy: its binding is appended to `names` and `strategies`;
      with nothing ever bound, `name` is unbound. A strategy that is not a
      mapping has no `items` (`AttributeError`), and a raised item ends the
      run with its exception. */
  function AddStrategy(make: Maker, b: Built, t: Tagged): Result<Built>
  {
    match t
    case Raised(e) => Err(e)
    case Tagged(suffix, strategy) =>
      if !strategy.Dict? then Err(AttributeError)
      else
        var current :- LastBinding(make, suffix, strategy.entries, b.current);
        match current
        case None => Err(UnboundLocalError)
        case Some(e) => Ok(Built(b.names + [e.0], b.strategies + [e.1], current))
  }

  /** The loop state after the strategies `ts`. */
  function BuildAll(make: Maker, ts: seq<Tagged>): Result<Built>
    decreases |ts|
  {
    if ts == [] then Ok(Built([], [], None))
    else
      var b :- BuildAll(make, ts[..|ts| - 1]);
      AddStrategy(make, b, ts[|ts| - 1])
  }

  /** Once a strategy fails, every longer run fails the same way. */
  lemma {:induction false} BuildAllStops(make: Maker, ts: seq<Tagged>, more: seq<Tagged>)
    requires BuildAll(make, ts).Err?
    ensures BuildAll(make, ts + more) == BuildAll(make, ts)
    decreases |more|
  {
    if more == [] {
      assert ts + more == ts;
    } else {
      assert (ts + more)[..|ts + more| - 1] == ts + more[..|more| - 1];
      BuildAllStops(make, ts, more[..|more| - 1]);
    }
  }

  /** Strategy `i` is a mapping, and name and entry `i` come from it: from
      its last item, or, for an empty mapping, from the binding before it. */
  predicate BuiltFrom(make: Maker, ts: seq<Tagged>, names: seq<string>, strategies: seq<Entries>, i: nat)
    requires i < |ts| && i < |names| && i < |strategies|
  {
    && IsMapping(ts[i])
    && if Items(ts[i]) != [] then
         var item := Items(ts[i])[|Items(ts[i])| - 1];
         make(ts[i].suffix, item.0, item.1) == Ok((names[i], strategies[i]))
       else
         0 < i && names[i] == names[i - 1] && strategies[i] == strategies[i - 1]
  }

  /** Each strategy mapping contributes exactly one name and one entry, in
      order: those built from its last item, or, for an empty mapping, a
      repeat of the previous ones. The last binding is the last pair. */
  lemma {:induction false} BuildAllShape(make: Maker, ts: seq<Tagged>)
    ensures var r := BuildAll(make, ts);
      r.Ok? ==>
        && |r.value.names| == |ts| && |r.value.strategies| == |ts|
        && (ts == [] <==> r.value.current.None?)
        && (ts != [] ==> r.value.current == Some((r.value.names[|ts| - 1], r.value.strategies[|ts| - 1])))
        && forall i :: 0 <= i < |ts| ==> BuiltFrom(make, ts, r.value.names, r.value.strategies, i)
    decreases |ts|
  {
    if ts != [] {
      var init := ts[..|ts| - 1];
      var t := ts[|ts| - 1];
      BuildAllShape(make, init);
      if BuildAll(make, ts).Ok? {
        var b := BuildAll(make, init).value;
        var r := BuildAll(make, ts).value;
        assert IsMapping(t);
        LastBindingCases(make, t.suffix, Items(t), b.current);
        var cur := LastBinding(make, t.suffix, Items(t), b.current).value;
        assert r == Built(b.names + [cur.value.0], b.strategies + [cur.value.1], cur);
        forall i | 0 <= i < |ts|
          ensures BuiltFrom(make, ts, r.names, r.strategies, i)
        {
          if i < |init| {
            assert ts[i] == init[i] && r.names[i] == b.names[i] && r.strategies[i] == b.strategies[i];
            assert BuiltFrom(make, init, b.names, b.strategies, i);
            if 0 < i {
              assert r.names[i - 1] == b.names[i - 1] && r.strategies[i - 1] == b.strategies[i - 1];
            }
          }
        }
      }
    }
  }

  /** The strategies compile exactly when every one is a mapping, every
      item of them does, and the first mapping is not empty. */
  lemma {:induction false} BuildAllOk(make: Maker, ts: seq<Tagged>)
    ensures BuildAll(make, ts).Ok? <==>
      && (forall i :: 0 <= i < |ts| ==> IsMapping(ts[i]))
      && (forall i, j :: 0 <= i < |ts| && IsMapping(ts[i]) && 0 <= j < |Items(ts[i])| ==>
            make(ts[i].suffix, Items(ts[i])[j].0, Items(ts[i])[j].1).Ok?)
      && (ts != [] ==> Items(ts[0]) != [])
    decreases |ts|
  {
    if ts != [] {
      var init := ts[..|ts| - 1];
      var t := ts[|ts| - 1];
      BuildAllOk(make, init);
      BuildAllShape(make, init);
      assert forall i :: 0 <= i < |init| ==> init[i] == ts[i];
      if BuildAll(make, init).Ok? {
        if IsMapping(t) {
          LastBindingCases(make, t.suffix, Items(t), BuildAll(make, init).value.current);
        }
      }
    }
  }

  /** With `StrategyEntry`, the strategies compile exactly when every
      strategy and every configuration is a mapping and the first strategy
      mapping is not empty. */
  lemma EntriesOk(ts: seq<Tagged>)
    ensures BuildAll(TheMaker(), ts).Ok? <==>
      && (forall i :: 0 <= i < |ts| ==> IsMapping(ts[i]))
      && (forall i, j :: 0 <= i < |ts| && 0 <= j < |Items(ts[i])| ==> Items(ts[i])[j].1.Dict?)
      && (ts != [] ==> Items(ts[0]) != [])
  {
    BuildAllOk(TheMaker(), ts);
    forall i, j | 0 <= i < |ts| && IsMapping(ts[i]) && 0 <= j < |Items(ts[i])|
      ensures TheMaker()(ts[i].suffix, Items(ts[i])[j].0, Items(ts[i])[j].1).Ok? <==> Items(ts[i])[j].1.Dict?
    {
      StrategyEntryShape(ts[i].suffix, Items(ts[i])[j].0, Items(ts[i])[j].1, "");
    }
  }

  /** The run raises at the first strategy that is not a mapping, with the
      exception raised for it: `AttributeError` for a value without
      `items`, the load's or the iteration's own for a raised item. */
  lemma BuildAllRaises(make: Maker, ts: seq<Tagged>, k: nat)
    requires k < |ts| && BuildAll(make, ts[..k]).Ok? && !IsMapping(ts[k])
    ensures BuildAll(make, ts) == Err(if ts[k].Raised? then ts[k].error else AttributeError)
  {
    assert ts[..k + 1][..k] == ts[..k];
    assert ts == ts[..k + 1] + ts[k + 1..];
    BuildAllStops(make, ts[..k + 1], ts[k + 1..]);
  }

  /** A longer run of strategies keeps the names and entries of a shorter
      one as a prefix. */
  lemma {:induction false} BuildAllPrefix(make: Maker, xs: seq<Tagged>, ys: seq<Tagged>)
    requires BuildAll(make, xs + ys).Ok?
    ensures BuildAll(make, xs).Ok?
    ensures var all := BuildAll(make, xs + ys).value; var b := BuildAll(make, xs).value;
      && |b.names| <= |all.names| && all.names[..|b.names|] == b.names
      && |b.strategies| <= |all.strategies| && all.strategies[..|b.strategies|] == b.strategies
    decreases |ys|
  {
    if ys == [] {
      assert xs + ys == xs;
    } else {
      if BuildAll(make, xs).Err? {
        BuildAllStops(make, xs, ys);
      }
      var init := ys[..|ys| - 1];
      assert (xs + ys)[..|xs + ys| - 1] == xs + init;
      BuildAllPrefix(make, xs, init);
    }
  }

  /** The strategies loop of `generate_pipeline` over one loaded resource,
      from the loop state `b`. */
  function AddAll(make: Maker, suffix: string, resource: seq<Value>, b: Built): Result<Built>
    decreases |resource|
  {
    if resource == [] then Ok(b)
    else
      var b' :- AddAll(make, suffix, resource[..|resource| - 1], b);
      AddStrategy(make, b', Tagged(suffix, resource[|resource| - 1]))
  }

  /** One pass of the steps loop of `generate_pipeline`: load the step's
      resource, iterate it, and run the strategies loop over it. */
  function AddStep(make: Maker, b: Built, step: string, load: string -> Result<Value>): Result<Built>
  {
    var resource :- load(step);
    var items :- Iterate(resource);
    AddAll(make, Suffix(step), items, b)
  }

  /** The loop state of `generate_pipeline` after the steps `steps`. */
  function BuildSteps(make: Maker, steps: seq<string>, load: string -> Result<Value>): Result<Built>
    decreases |steps|
  {
    if steps == [] then Ok(Built([], [], None))
    else
      var b :- BuildSteps(make, steps[..|steps| - 1], load);
      AddStep(make, b, steps[|steps| - 1], load)
  }

  /** Once a strategy of a resource fails, the rest of it is skipped. */
  lemma {:induction false} AddAllStops(make: Maker, suffix: string, resource: seq<Value>, j: nat, b: Built)
    requires j <= |resource| && AddAll(make, suffix, resource[..j], b).Err?
    ensures AddAll(make, suffix, resource, b) == AddAll(make, suffix, resource[..j], b)
    decreases |resource| - j
  {
    if j < |resource| {
      assert resource[..j + 1][..j] == resource[..j];
      AddAllStops(make, suffix, resource, j + 1, b);
    } else {
      assert resource[..j] == resource;
    }
  }

  /** Once a step fails, the remaining steps are skipped. */
  lemma {:induction false} BuildStepsStops(make: Maker, steps: seq<string>, i: nat, load: string -> Result<Value>)
    requires i <= |steps| && BuildSteps(make, steps[..i], load).Err?
    ensures BuildSteps(make, steps, load) == BuildSteps(make, steps[..i], load)
    decreases |steps| - i
  {
    if i < |steps| {
      assert steps[..i + 1][..i] == steps[..i];
      BuildStepsStops(make, steps, i + 1, load);
    } else {
      assert steps[..i] == steps;
    }
  }

  /** The strategies loop over one resource continues the run over all
      strategies so far with that resource's strategies. */
  lemma {:induction false} AddAllFlat(make: Maker, suffix: string, resource: seq<Value>, done: seq<Tagged>)
    requires BuildAll(make, done).Ok?
    ensures AddAll(make, suffix, resource, BuildAll(make, done).value) == BuildAll(make, done + TagAll(suffix, resource))
    decreases |resource|
  {
    if resource == [] {
      assert done + TagAll(suffix, resource) == done;
    } else {
      var init := resource[..|resource| - 1];
      var t := Tagged(suffix, resource[|resource| - 1]);
      AddAllFlat(make, suffix, init, done);
      var all := done + TagAll(suffix, resource);
      assert all[..|all| - 1] == done + TagAll(suffix, init);
      assert all[|all| - 1] == t;
      if BuildAll(make, done + TagAll(suffix, init)).Err? {
        assert BuildAll(make, all) == BuildAll(make, done + TagAll(suffix, init));
      }
    }
  }

  /** The nested loops of `generate_pipeline` are one loop over every
      strategy mapping of every step, in order. */
  lemma {:induction false} BuildStepsFlat(make: Maker, steps: seq<string>, load: string -> Result<Value>)
    ensures BuildSteps(make, steps, load) == BuildAll(make, TaggedAll(steps, load))
    decreases |steps|
  {
    if steps != [] {
      var init := steps[..|steps| - 1];
      var last := steps[|steps| - 1];
      BuildStepsFlat(make, init, load);
      var done := TaggedAll(init, load);
      var more := Loaded(last, load);
      assert TaggedAll(steps, load) == done + more;
      if BuildAll(make, done).Err? {
        BuildAllStops(make, done, more);
      } else if load(last).Err? || Iterate(load(last).value).Err? {
        assert |more| == 1 && more[0].Raised?;
        assert (done + more)[..|done|] == done;
      } else {
        AddAllFlat(make, Suffix(last), Iterate(load(last).value).value, done);
      }
    }
  }

  /** A step whose resource cannot be loaded, or cannot be iterated, ends
      the run with that exception once the steps before it succeed. */
  lemma LoadRaises(make: Maker, steps: seq<string>, load: string -> Result<Value>)
    requires steps != [] && BuildSteps(make, steps[..|steps| - 1], load).Ok?
    ensures var last := steps[|steps| - 1];
      && (load(last).Err? ==> BuildSteps(make, steps, load) == Err(load(last).error))
      && (load(last).Ok? && Iterate(load(last).value).Err? ==> BuildSteps(make, steps, load) == Err(TypeError))
  {
  }

  /** The pipeline document: version 1, the strategy entries in order, and
      the names joined by `" | "` as the pipe. */
  function PipelineDocument(b: Built): Value
  {
    Dict([("version", Int(1)),
          ("strategies", List(seq(|b.strategies|, i requires 0 <= i < |b.strategies| => Dict(b.strategies[i])))),
          ("pipelines", Dict([("pipe", Str(Join(" | ", b.names)))]))])
  }

  /** `generate_pipeline(ts, steps)`. */
  function GeneratePipelineSpec(steps: seq<string>, load: string -> Result<Value>): Result<Value>
  {
    var b :- BuildSteps(TheMaker(), steps, load);
    Ok(PipelineDocument(b))
  }

  /** The document holds version 1, the strategy entries in order and the
      pipe that joins the names. */
  lemma DocumentShape(b: Built)
    ensures var doc := PipelineDocument(b);
      && Get(doc, "version") == Ok(Int(1))
      && Get(doc, "strategies").Ok? && Get(doc, "strategies").value.List?
      && |Get(doc, "strategies").value.items| == |b.strategies|
      && (forall i :: 0 <= i < |b.strategies| ==> Get(doc, "strategies").value.items[i] == Dict(b.strategies[i]))
      && Get(doc, "pipelines") == Ok(Dict([("pipe", Str(Join(" | ", b.names)))]))
  {
    var doc := PipelineDocument(b);
    assert Distinct(Keys(doc.entries));
    LookupDistinct(doc.entries, 0);
    LookupDistinct(doc.entries, 1);
    LookupDistinct(doc.entries, 2);
    GetCases(doc, "version");
    GetCases(doc, "strategies");
    GetCases(doc, "pipelines");
  }

  /** `generate_pipeline` either raises the exception of the strategy loop
      or returns the document of its names and entries, one of each per
      strategy mapping of the steps. */
  lemma GeneratePipelineShape(steps: seq<string>, load: string -> Result<Value>)
    ensures var b := BuildAll(TheMaker(), TaggedAll(steps, load));
      && (b.Err? ==> GeneratePipelineSpec(steps, load) == Err(b.error))
      && (b.Ok? ==>
            && GeneratePipelineSpec(steps, load) == Ok(PipelineDocument(b.value))
            && |b.value.names| == |TaggedAll(steps, load)|
            && |b.value.strategies| == |TaggedAll(steps, load)|)
  {
    BuildStepsFlat(TheMaker(), steps, load);
    BuildAllShape(TheMaker(), TaggedAll(steps, load));
  }

  /** The pipe of a longer run begins with the pipe of a shorter one: the
      strategies of later steps are joined after those of earlier ones. */
  lemma PipeExtends(make: Maker, xs: seq<Tagged>, ys: seq<Tagged>)
    requires xs != [] && ys != [] && BuildAll(make, xs + ys).Ok?
    ensures BuildAll(make, xs).Ok?
    ensures var all := BuildAll(make, xs + ys).value.names;
      && |all| == |xs| + |ys|
      && Join(" | ", all) == Join(" | ", BuildAll(make, xs).value.names) + " | " + Join(" | ", all[|xs|..])
  {
    BuildAllPrefix(make, xs, ys);
    BuildAllShape(make, xs);
    BuildAllShape(make, xs + ys);
    var all := BuildAll(make, xs + ys).value.names;
    assert all == all[..|xs|] + all[|xs|..];
    JoinConcat(" | ", all[..|xs|], all[|xs|..]);
  }

  /** The innermost loop of `generate_pipeline`: `name` and `d` are rebound
      for every item of one strategy mapping, by `make` (in
      `generate_pipeline`, `StrategyEntry`). */
  method BindItems(make: Maker, suffix: string, strategy: Entries, current: Option<(string, Entries)>)
    returns (r: Result<Option<(string, Entries)>>)
    ensures r == LastBinding(make, suffix, strategy, current)
  {
    var binding := current;
    var k := 0;
    while k < |strategy|
      invariant 0 <= k <= |strategy|
      invariant LastBinding(make, suffix, strategy[..k], current) == Ok(binding)
    {
      var (stype, conf) := strategy[k];
      assert strategy[..k + 1][..k] == strategy[..k];
      var entry := make(suffix, stype, conf);
      if entry.Err? {
        LastBindingStops(make, suffix, strategy, k + 1, current);
        return Err(entry.error);
      }
      binding := Some(entry.value);
      k := k + 1;
    }
    assert strategy[..k] == strategy;
    r := Ok(binding);
  }

  /** One pass of the strategies loop of `generate_pipeline`: the binding
      left by one strategy mapping is appended to `names` and `strategies`. */
  method AddOne(make: Maker, t: Tagged, names: seq<string>, strategies: seq<Entries>, current: Option<(string, Entries)>)
    returns (r: Result<Built>)
    ensures r == AddStrategy(make, Built(names, strategies, current), t)
  {
    if t.Raised? {
      return Err(t.error);
    }
    if !t.strategy.Dict? {
      return Err(AttributeError);
    }
    var binding :- BindItems(make, t.suffix, t.strategy.entries, current);
    if binding.None? {
      return Err(UnboundLocalError);
    }
    var (name, d) := binding.value;
    r := Ok(Built(names + [name], strategies + [d], binding));
  }

  /** The strategies loop of `generate_pipeline` over one loaded resource. */
  method AddResource(make: Maker, suffix: string, resource: seq<Value>,
                     names: seq<string>, strategies: seq<Entries>, current: Option<(string, Entries)>)
    returns (r: Result<Built>)
    ensures r == AddAll(make, suffix, resource, Built(names, strategies, current))
  {
    ghost var start := Built(names, strategies, current);
    var names, strategies, current := names, strategies, current;
    var j := 0;
    while j < |resource|
      invariant 0 <= j <= |resource|
      invariant AddAll(make, suffix, resource[..j], start) == Ok(Built(names, strategies, current))
    {
      assert resource[..j + 1][..j] == resource[..j];
      var b := AddOne(make, Tagged(suffix, resource[j]), names, strategies, current);
      if b.Err? {
        AddAllStops(make, suffix, resource, j + 1, start);
        return b;
      }
      names, strategies, current := b.value.names, b.value.strategies, b.value.current;
      j := j + 1;
    }
    assert resource[..j] == resource;
    r := Ok(Built(names, strategies, current));
  }

  /** The two outer loops of `generate_pipeline`: every strategy mapping of
      every step, in order. */
  method CollectStrategies(make: Maker, steps: seq<string>, load: string -> Result<Value>) returns (r: Result<Built>)
    ensures r == BuildSteps(make, steps, load)
  {
    var names: seq<string> := [];
    var strategies: seq<Entries> := [];
    var current: Option<(string, Entries)> := None;
    var i := 0;
    while i < |steps|
      invariant 0 <= i <= |steps|
      invariant BuildSteps(make, steps[..i], load) == Ok(Built(names, strategies, current))
    {
      var step := steps[i];
      var nameSuffix := Suffix(step);
      assert steps[..i + 1][..i] == steps[..i];
      ghost var next := AddStep(make, Built(names, strategies, current), step, load);
      assert BuildSteps(make, steps[..i + 1], load) == next;
      var resource := load(step);
      if resource.Err? {
        assert next == Err(resource.error);
        BuildStepsStops(make, steps, i + 1, load);
        return Err(resource.error);
      }
      var items := Iterate(resource.value);
      if items.Err? {
        assert next == Err(items.error);
        BuildStepsStops(make, steps, i + 1, load);
        return Err(items.error);
      }
      var b := AddResource(make, nameSuffix, items.value, names, strategies, current);
      assert next == b;
      if b.Err? {
        BuildStepsStops(make, steps, i + 1, load);
        return b;
      }
      names, strategies, current := b.value.names, b.value.strategies, b.value.current;
      i := i + 1;
    }
    assert steps[..i] == steps;
    r := Ok(Built(names, strategies, current));
  }

  /** `generate_pipeline(ts, steps)`, with `load_container(ts, step)` given
      as `load(step)`. */
  method GeneratePipeline(steps: seq<string>, load: string -> Result<Value>) returns (r: Result<Value>)
    ensures r == GeneratePipelineSpec(steps, load)
  {
    var b :- CollectStrategies(TheMaker(), steps, load);
    r := Ok(PipelineDocument(b));
  }
}
