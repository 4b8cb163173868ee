/** The workflow graph built from the nested description an upstream planner
    supplies (ontoconv/ontoflow.py, class `Node`).

    A description is a tree: each entry has a depth, an IRI and optionally a
    list of children, and every child carries the predicate that relates it to
    its parent. Building the graph creates one node per entry, children before
    their parent, and gives every node the position it receives in the shared
    node list as its id. A child related by `hasOutput` is the tool that
    produces its parent's artefact: it records the parent as one of its
    outputs. Any other child is an input the parent consumes.

    The node list is an arena: `inputs` and `outputs` hold ids, i.e. positions
    in the arena, instead of object references. */
module Workflow {
  import opened Text
  import opened PyData

  const HasOutput: string := "hasOutput"
  const Dataset: string := "dataset"

  /** One entry of the nested description: `depth`, `iri` and the optional
      `children` list. */
  datatype Desc = Desc(depth: int, iri: string, children: ChildList)

  /** The `children` entry: absent, or present with a (possibly empty) list. */
  datatype ChildList = Absent | Present(items: seq<Child>)

  /** A child entry together with its `predicate` (the relation to its parent). */
  datatype Child = Child(relation: string, node: Desc)

  /** `resource_type`: the producing tool (or "dataset") and the consuming tool. */
  datatype ResourceType = ResourceType(output: string, input: string)

  datatype Node = Node(
    id: nat,
    depth: int,
    iri: string,
    resourceType: ResourceType,
    inputs: seq<nat>,    // ids of the nodes this node consumes, in description order
    outputs: seq<nat>)   // ids of the nodes whose artefact this node produces

  predicate Produces(c: Child) { c.relation == HasOutput }

  /** The children of an entry; none when it has no `children` key. */
  function ChildrenOf(d: Desc): seq<Child>
  {
    match d.children
    case Absent => []
    case Present(cs) => cs
  }

  // -----------------------------------------------------------------------
  // Reference definitions: what the build produces, read off the description
  // -----------------------------------------------------------------------

  /** Number of nodes the description gives rise to. */
  function Size(d: Desc): (n: nat)
    ensures n >= 1
    decreases d, 1
  {
    match d.children
    case Absent => 1
    case Present(_) => 1 + SizeFrom(d, 0)
  }

  /** Number of nodes the children `i..` of `d` give rise to. */
  function SizeFrom(d: Desc, i: nat): nat
    requires i <= |ChildrenOf(d)|
    decreases d, 0, |ChildrenOf(d)| - i
  {
    var cs := ChildrenOf(d);
    if i == |cs| then 0
    else
      assert d.children == Present(cs) && cs[i] in cs;
      Size(cs[i].node) + SizeFrom(d, i + 1)
  }

  /** Number of nodes the children before `n` give rise to. */
  function SizePrefix(cs: seq<Child>, n: nat): nat
    requires n <= |cs|
  {
    if n == 0 then 0 else SizePrefix(cs, n - 1) + Size(cs[n - 1].node)
  }

  /** Id of the node built for child `i` when the first child's subtree starts
      at id `base`: its subtree follows those of the earlier children, and
      its own node comes last in it. */
  function ChildId(cs: seq<Child>, i: nat, base: nat): nat
    requires i < |cs|
  {
    base + SizePrefix(cs, i + 1) - 1
  }

  /** Ids of the children `i..` whose relation is `hasOutput` (`producing`)
      or is not (`!producing`), in description order. */
  function IdsWhere(cs: seq<Child>, i: nat, base: nat, producing: bool): seq<nat>
    requires i <= |cs|
    decreases |cs| - i
  {
    if i == |cs| then []
    else (if Produces(cs[i]) == producing then [ChildId(cs, i, base)] else [])
         + IdsWhere(cs, i + 1, base, producing)
  }

  /** The IRI of the last `hasOutput` child among `i..`, or `current` when
      there is none. */
  function LastProducerFrom(cs: seq<Child>, i: nat, current: string): string
    requires i <= |cs|
    decreases |cs| - i
  {
    if i == |cs| then current
    else LastProducerFrom(cs, i + 1, if Produces(cs[i]) then cs[i].node.iri else current)
  }

  /** The last `hasOutput` child wins; without one, `current` is kept. */
  lemma {:induction false} LastProducerWins(cs: seq<Child>, i: nat, current: string)
    requires i <= |cs|
    ensures (forall j :: i <= j < |cs| ==> !Produces(cs[j])) ==> LastProducerFrom(cs, i, current) == current
    ensures forall j :: i <= j < |cs| && Produces(cs[j]) && (forall k :: j < k < |cs| ==> !Produces(cs[k]))
                        ==> LastProducerFrom(cs, i, current) == cs[j].node.iri
    decreases |cs| - i
  {
    if i < |cs| {
      LastProducerWins(cs, i + 1, if Produces(cs[i]) then cs[i].node.iri else current);
    }
  }

  /** The output resource type the node for `d` ends up with: "dataset" for an
      entry without children, otherwise the IRI of its last producer, or empty. */
  function OutputTypeOf(d: Desc): string
  {
    match d.children
    case Absent => Dataset
    case Present(cs) => LastProducerFrom(cs, 0, "")
  }

  /** The `inputs` of the node built for `d` on top of `base` earlier nodes. */
  function InputsOf(d: Desc, base: nat): seq<nat>
  {
    IdsWhere(ChildrenOf(d), 0, base, false)
  }

  // -----------------------------------------------------------------------
  // The build, as a function of the description and the node list so far
  // -----------------------------------------------------------------------

  /** What the children loop of `Node.__init__` has accumulated so far. */
  datatype Scan = Scan(arena: seq<Node>, inputs: seq<nat>, produced: string, producers: seq<nat>)

  /** `Node(data, nodes)`: the node list after building the node for `d` on
      top of `a`. The new node is the last element. */
  function Build(d: Desc, a: seq<Node>): (r: seq<Node>)
    ensures |r| == |a| + Size(d)
    ensures r[..|a|] == a
    decreases d, 1
  {
    match d.children
    case Absent => a + [Node(|a|, d.depth, d.iri, ResourceType(Dataset, ""), [], [])]
    case Present(_) =>
      var s := ScanChildren(d, 0, Scan(a, [], "", []));
      var id := |s.arena|;
      LinkAbove(s.arena, s.producers, id, |a|);
      Link(s.arena, s.producers, id) + [Node(id, d.depth, d.iri, ResourceType(s.produced, ""), s.inputs, [])]
  }

  /** The children loop from child `i` on: build the child, then record it as
      a producer or as a consumed input. */
  function ScanChildren(d: Desc, i: nat, s: Scan): (r: Scan)
    requires i <= |ChildrenOf(d)|
    ensures |r.arena| == |s.arena| + SizeFrom(d, i)
    ensures r.arena[..|s.arena|] == s.arena
    ensures forall p :: p in r.producers ==> p in s.producers || |s.arena| <= p < |r.arena|
    decreases d, 0, |ChildrenOf(d)| - i, 1
  {
    if i == |ChildrenOf(d)| then s
    else ScanChildren(d, i + 1, ChildStep(d, i, s))
  }

  /** One round of the children loop: build child `i`, then record it. */
  function ChildStep(d: Desc, i: nat, s: Scan): (r: Scan)
    requires i < |ChildrenOf(d)|
    ensures |r.arena| == |s.arena| + Size(ChildrenOf(d)[i].node)
    ensures r.arena[..|s.arena|] == s.arena
    ensures forall p :: p in r.producers ==> p in s.producers || |s.arena| <= p < |r.arena|
    decreases d, 0, |ChildrenOf(d)| - i, 0
  {
    var cs := ChildrenOf(d);
    assert d.children == Present(cs) && cs[i] in cs;
    var arena := Build(cs[i].node, s.arena);
    var cid := |arena| - 1;
    if Produces(cs[i]) then Scan(arena, s.inputs, cs[i].node.iri, s.producers + [cid])
    else Scan(Consume(arena, cid, d.iri), s.inputs + [cid], s.produced, s.producers)
  }

  /** A consumed child gets the parent's IRI as its input type unless it
      already has one. */
  function Consume(a: seq<Node>, cid: nat, iri: string): (r: seq<Node>)
    requires cid < |a|
    ensures |r| == |a| && forall k :: 0 <= k < |a| && k != cid ==> r[k] == a[k]
  {
    if |a[cid].resourceType.input| == 0 then
      a[cid := a[cid].(resourceType := a[cid].resourceType.(input := iri))]
    else a
  }

  /** The back-references: every producer records the parent as an output. */
  function Link(a: seq<Node>, ps: seq<nat>, parent: nat): (r: seq<Node>)
    ensures |r| == |a|
    decreases |ps|
  {
    if ps == [] then a
    else
      var p := ps[0];
      var a' := if p < |a| then a[p := a[p].(outputs := a[p].outputs + [parent])] else a;
      assert forall q :: q in ps[1..] ==> q in ps;
      Link(a', ps[1..], parent)
  }

  /** Linking leaves the nodes that are not listed alone. */
  lemma {:induction false} LinkFrame(a: seq<Node>, ps: seq<nat>, parent: nat, k: nat)
    requires k < |a| && k !in ps
    ensures Link(a, ps, parent)[k] == a[k]
    decreases |ps|
  {
    if ps != [] {
      var p := ps[0];
      var a' := if p < |a| then a[p := a[p].(outputs := a[p].outputs + [parent])] else a;
      assert k !in ps[1..] && a'[k] == a[k];
      LinkFrame(a', ps[1..], parent, k);
    }
  }

  /** Linking nodes at or above `lo` leaves the nodes below `lo` alone. */
  lemma {:induction false} LinkAbove(a: seq<Node>, ps: seq<nat>, parent: nat, lo: nat)
    requires lo <= |a|
    requires forall p :: p in ps ==> lo <= p
    ensures Link(a, ps, parent)[..lo] == a[..lo]
    decreases |ps|
  {
    if ps != [] {
      var p := ps[0];
      assert p in ps;
      var a' := if p < |a| then a[p := a[p].(outputs := a[p].outputs + [parent])] else a;
      assert a'[..lo] == a[..lo];
      assert forall q :: q in ps[1..] ==> q in ps;
      LinkAbove(a', ps[1..], parent, lo);
    }
  }

  // -----------------------------------------------------------------------
  // Properties of the build
  // -----------------------------------------------------------------------

  predicate Increasing(xs: seq<nat>)
  {
    forall i, j :: 0 <= i < j < |xs| ==> xs[i] < xs[j]
  }

  /** The shape of every node list built from descriptions: a node's id is
      its position, its inputs are earlier nodes in increasing order (so no
      node is an input twice), and it is an output of at most one later node. */
  ghost predicate Wf(g: seq<Node>)
  {
    forall k :: 0 <= k < |g| ==> NodeWf(g, k)
  }

  ghost predicate NodeWf(g: seq<Node>, k: nat)
    requires k < |g|
  {
    && g[k].id == k
    && Increasing(g[k].inputs)
    && (forall x :: x in g[k].inputs ==> x < k)
    && |g[k].outputs| <= 1
    && (forall o :: o in g[k].outputs ==> k < o < |g|)
  }

  lemma {:induction false} SizePrefixMono(cs: seq<Child>, j: nat, k: nat)
    requires j < k <= |cs|
    ensures SizePrefix(cs, j) < SizePrefix(cs, k)
    decreases k
  {
    if j < k - 1 {
      SizePrefixMono(cs, j, k - 1);
    }
  }

  /** The listed ids lie within the block of ids of children `i..`. */
  lemma {:induction false} IdsWhereBounds(cs: seq<Child>, i: nat, base: nat, producing: bool)
    requires i <= |cs|
    ensures forall x :: x in IdsWhere(cs, i, base, producing) ==>
              base + SizePrefix(cs, i) <= x < base + SizePrefix(cs, |cs|)
    decreases |cs| - i
  {
    if i < |cs| {
      IdsWhereBounds(cs, i + 1, base, producing);
      if i + 1 < |cs| {
        SizePrefixMono(cs, i + 1, |cs|);
      }
    }
  }

  /** Later children have larger ids, so the list is increasing. */
  lemma {:induction false} IdsWhereIncreasing(cs: seq<Child>, i: nat, base: nat, producing: bool)
    requires i <= |cs|
    ensures Increasing(IdsWhere(cs, i, base, producing))
    decreases |cs| - i
  {
    if i < |cs| {
      IdsWhereIncreasing(cs, i + 1, base, producing);
      IdsWhereBounds(cs, i + 1, base, producing);
      var tail := IdsWhere(cs, i + 1, base, producing);
      assert forall k :: 0 <= k < |tail| ==> tail[k] in tail;
    }
  }

  /** Every listed id is that of a child with the matching relation. */
  lemma {:induction false} IdsWhereOrigin(cs: seq<Child>, i: nat, base: nat, producing: bool)
    requires i <= |cs|
    ensures forall x :: x in IdsWhere(cs, i, base, producing) ==>
              exists j :: i <= j < |cs| && x == ChildId(cs, j, base) && Produces(cs[j]) == producing
    decreases |cs| - i
  {
    if i < |cs| {
      IdsWhereOrigin(cs, i + 1, base, producing);
    }
  }

  /** Child `j`'s id is listed exactly when its relation matches. */
  lemma {:induction false} IdsWhereMember(cs: seq<Child>, i: nat, base: nat, producing: bool, j: nat)
    requires i <= j < |cs|
    ensures ChildId(cs, j, base) in IdsWhere(cs, i, base, producing) <==> Produces(cs[j]) == producing
    decreases |cs| - i
  {
    var tail := IdsWhere(cs, i + 1, base, producing);
    if i == j {
      IdsWhereBounds(cs, i + 1, base, producing);
      assert ChildId(cs, j, base) !in tail;
    } else {
      SizePrefixMono(cs, i + 1, j + 1);
      IdsWhereMember(cs, i + 1, base, producing, j);
    }
  }

  lemma {:induction false} SizeSplit(d: Desc, i: nat)
    requires i <= |ChildrenOf(d)|
    ensures SizePrefix(ChildrenOf(d), i) + SizeFrom(d, i) == SizePrefix(ChildrenOf(d), |ChildrenOf(d)|)
    decreases |ChildrenOf(d)| - i
  {
    if i < |ChildrenOf(d)| {
      SizeSplit(d, i + 1);
    }
  }

  /** The node built for child `j` of `d`, before its parent links back. */
  ghost function PendingChild(d: Desc, j: nat, base: nat): Node
    requires j < |ChildrenOf(d)|
  {
    var cs := ChildrenOf(d);
    Node(ChildId(cs, j, base), cs[j].node.depth, cs[j].node.iri,
         ResourceType(OutputTypeOf(cs[j].node), if Produces(cs[j]) then "" else d.iri),
         InputsOf(cs[j].node, base + SizePrefix(cs, j)), [])
  }

  /** The node an entry gives rise to is the last of its block: it gets the
      next free id, keeps the entry's depth and IRI, takes the output type of
      its last `hasOutput` child ("dataset" for a leaf), consumes exactly its
      other children in description order, and has no input type and no
      outputs yet. */
  lemma {:induction false} BuildRoot(d: Desc, a: seq<Node>)
    ensures var r := Build(d, a);
            r[|r| - 1] == Node(|r| - 1, d.depth, d.iri, ResourceType(OutputTypeOf(d), ""), InputsOf(d, |a|), [])
    decreases d, 1
  {
    match d.children
    case Absent =>
    case Present(_) =>
      ScanLists(d, 0, Scan(a, [], "", []), |a|);
  }

  /** What the children loop accumulates: the ids of the consumed and of the
      producing children, in order, and the IRI of the last producer. */
  lemma {:induction false} ScanLists(d: Desc, i: nat, s: Scan, base: nat)
    requires i <= |ChildrenOf(d)|
    requires |s.arena| == base + SizePrefix(ChildrenOf(d), i)
    ensures var r := ScanChildren(d, i, s); var cs := ChildrenOf(d);
      && r.inputs == s.inputs + IdsWhere(cs, i, base, false)
      && r.producers == s.producers + IdsWhere(cs, i, base, true)
      && r.produced == LastProducerFrom(cs, i, s.produced)
    decreases |ChildrenOf(d)| - i
  {
    var cs := ChildrenOf(d);
    if i < |cs| {
      var s' := ChildStep(d, i, s);
      var cid := ChildId(cs, i, base);
      assert |s'.arena| == base + SizePrefix(cs, i + 1);
      assert s'.inputs == s.inputs + (if Produces(cs[i]) then [] else [cid]);
      assert s'.producers == s.producers + (if Produces(cs[i]) then [cid] else []);
      assert s'.produced == if Produces(cs[i]) then cs[i].node.iri else s.produced;
      ScanLists(d, i + 1, s', base);
      var r := ScanChildren(d, i + 1, s');
      assert ScanChildren(d, i, s) == r;
      var ins, outs := IdsWhere(cs, i + 1, base, false), IdsWhere(cs, i + 1, base, true);
      assert IdsWhere(cs, i, base, false) == (if Produces(cs[i]) then [] else [cid]) + ins;
      assert IdsWhere(cs, i, base, true) == (if Produces(cs[i]) then [cid] else []) + outs;
      assert r.inputs == s.inputs + ((if Produces(cs[i]) then [] else [cid]) + ins);
      if Produces(cs[i]) {
        assert r.producers == (s.producers + [cid]) + outs;
      } else {
        assert r.producers == s.producers + outs;
      }
    }
  }

  /** One round of the children loop leaves child `i`'s node pending. */
  lemma ChildStepPending(d: Desc, i: nat, s: Scan, base: nat)
    requires i < |ChildrenOf(d)|
    requires |s.arena| == base + SizePrefix(ChildrenOf(d), i)
    ensures var s' := ChildStep(d, i, s); var cid := ChildId(ChildrenOf(d), i, base);
      |s'.arena| == cid + 1 && s'.arena[cid] == PendingChild(d, i, base)
  {
    var cs := ChildrenOf(d);
    assert d.children == Present(cs) && cs[i] in cs;
    BuildRoot(cs[i].node, s.arena);
    var s' := ChildStep(d, i, s);
    var cid := ChildId(cs, i, base);
    var arena := Build(cs[i].node, s.arena);
    var built := Node(cid, cs[i].node.depth, cs[i].node.iri, ResourceType(OutputTypeOf(cs[i].node), ""),
                      InputsOf(cs[i].node, |s.arena|), []);
    assert |arena| - 1 == cid && arena[cid] == built;
    if Produces(cs[i]) {
      assert s'.arena == arena;
    } else {
      assert s'.arena == Consume(arena, cid, d.iri);
      assert s'.arena[cid] == built.(resourceType := ResourceType(OutputTypeOf(cs[i].node), d.iri));
    }
  }

  /** Each child's node as the children loop leaves it. */
  lemma {:induction false} ScanNodes(d: Desc, i: nat, s: Scan, base: nat)
    requires i <= |ChildrenOf(d)|
    requires |s.arena| == base + SizePrefix(ChildrenOf(d), i)
    ensures var r := ScanChildren(d, i, s); var cs := ChildrenOf(d);
      && |r.arena| == base + SizePrefix(cs, |cs|)
      && (forall j :: i <= j < |cs| ==> ChildId(cs, j, base) < |r.arena|)
      && (forall j :: i <= j < |cs| ==> r.arena[ChildId(cs, j, base)] == PendingChild(d, j, base))
    decreases |ChildrenOf(d)| - i
  {
    var cs := ChildrenOf(d);
    SizeSplit(d, i);
    if i < |cs| {
      var s' := ChildStep(d, i, s);
      var cid := ChildId(cs, i, base);
      ChildStepPending(d, i, s, base);
      ScanNodes(d, i + 1, s', base);
      var r := ScanChildren(d, i + 1, s');
      assert ScanChildren(d, i, s) == r;
      forall j | i <= j < |cs|
        ensures ChildId(cs, j, base) < |r.arena| && r.arena[ChildId(cs, j, base)] == PendingChild(d, j, base)
      {
        if j == i {
          assert r.arena[..|s'.arena|] == s'.arena;
          assert r.arena[cid] == r.arena[..|s'.arena|][cid];
        }
      }
    }
  }

  /** Linking changes nothing but outputs. */
  lemma {:induction false} LinkKeeps(a: seq<Node>, ps: seq<nat>, parent: nat)
    ensures forall k :: 0 <= k < |a| ==>
              Link(a, ps, parent)[k].id == a[k].id && Link(a, ps, parent)[k].inputs == a[k].inputs
    decreases |ps|
  {
    if ps != [] {
      var p := ps[0];
      var a' := if p < |a| then a[p := a[p].(outputs := a[p].outputs + [parent])] else a;
      LinkKeeps(a', ps[1..], parent);
    }
  }

  /** Linking appends the parent to the outputs of exactly the listed nodes. */
  lemma {:induction false} LinkEffect(a: seq<Node>, ps: seq<nat>, parent: nat)
    requires forall p :: p in ps ==> p < |a|
    requires Increasing(ps)
    ensures forall k :: 0 <= k < |a| ==>
              Link(a, ps, parent)[k] == if k in ps then a[k].(outputs := a[k].outputs + [parent]) else a[k]
    decreases |ps|
  {
    if ps != [] {
      var p := ps[0];
      assert p in ps;
      var a' := a[p := a[p].(outputs := a[p].outputs + [parent])];
      assert forall q :: q in ps[1..] ==> q in ps && q != p;
      LinkEffect(a', ps[1..], parent);
    }
  }

  /** The final node of child `j`: its pending node, linked to the parent
      when it is the parent's `hasOutput` tool. */
  lemma ChildLinked(d: Desc, a: seq<Node>, j: nat)
    requires j < |ChildrenOf(d)|
    ensures var r := Build(d, a); var cid := ChildId(ChildrenOf(d), j, |a|);
      && |a| <= cid < |r| - 1
      && r[cid] == if Produces(ChildrenOf(d)[j]) then PendingChild(d, j, |a|).(outputs := [|r| - 1])
                   else PendingChild(d, j, |a|)
  {
    var cs := ChildrenOf(d);
    assert d.children.Present?;
    var s0 := Scan(a, [], "", []);
    var s := ScanChildren(d, 0, s0);
    ScanLists(d, 0, s0, |a|);
    ScanNodes(d, 0, s0, |a|);
    IdsWhereIncreasing(cs, 0, |a|, true);
    IdsWhereMember(cs, 0, |a|, true, j);
    var id := |s.arena|;
    LinkEffect(s.arena, s.producers, id);
    var linked := Link(s.arena, s.producers, id);
    var root := Node(id, d.depth, d.iri, ResourceType(s.produced, ""), s.inputs, []);
    var cid := ChildId(cs, j, |a|);
    var pending := PendingChild(d, j, |a|);
    assert s.arena[cid] == pending;
    assert linked[cid] == if Produces(cs[j]) then pending.(outputs := [id]) else pending;
    assert Build(d, a) == linked + [root];
    SizePrefixMono(cs, 0, j + 1);
  }

  /** The final node of child `j` of `d`: it lies before its parent, keeps its
      own shape, takes the parent's IRI as its input type unless it is the
      parent's `hasOutput` tool, and has the parent as its single output
      exactly when it is that tool. */
  lemma ChildFinal(d: Desc, a: seq<Node>, j: nat)
    requires j < |ChildrenOf(d)|
    ensures var r := Build(d, a); var cs := ChildrenOf(d); var cid := ChildId(cs, j, |a|);
      && |a| <= cid < |r| - 1
      && r[cid].id == cid
      && r[cid].depth == cs[j].node.depth
      && r[cid].iri == cs[j].node.iri
      && r[cid].resourceType.output == OutputTypeOf(cs[j].node)
      && r[cid].resourceType.input == (if Produces(cs[j]) then "" else d.iri)
      && r[cid].inputs == InputsOf(cs[j].node, |a| + SizePrefix(cs, j))
      && r[cid].outputs == (if Produces(cs[j]) then [|r| - 1] else [])
  {
    ChildLinked(d, a, j);
  }

  /** Building on a well-formed node list keeps it well-formed. */
  lemma {:induction false} BuildWf(d: Desc, a: seq<Node>)
    requires Wf(a)
    ensures Wf(Build(d, a))
    decreases d, 1
  {
    var g := Build(d, a);
    match d.children
    case Absent =>
      assert forall k :: 0 <= k < |a| ==> g[k] == a[k];
      assert forall k :: 0 <= k < |a| ==> NodeWf(a, k) ==> NodeWf(g, k);
    case Present(_) =>
      BuildWfChildren(d, a);
      BuildRoot(d, a);
      var cs := ChildrenOf(d);
      IdsWhereIncreasing(cs, 0, |a|, false);
      IdsWhereBounds(cs, 0, |a|, false);
      SizeSplit(d, 0);
      assert NodeWf(g, |g| - 1);
  }

  /** The nodes below the new root stay well-formed. */
  lemma {:induction false} BuildWfChildren(d: Desc, a: seq<Node>)
    requires d.children.Present?
    requires Wf(a)
    ensures forall k :: 0 <= k < |Build(d, a)| - 1 ==> NodeWf(Build(d, a), k)
    decreases d, 0, |ChildrenOf(d)| + 2
  {
    forall k | 0 <= k < |Build(d, a)| - 1
      ensures NodeWf(Build(d, a), k)
    {
      BelowRootWf(d, a, k);
    }
  }

  /** A `hasOutput` child has exactly the parent as output. */
  lemma ProducerOutputs(d: Desc, a: seq<Node>, k: nat)
    requires k in ScanChildren(d, 0, Scan(a, [], "", [])).producers
    ensures var s := ScanChildren(d, 0, Scan(a, [], "", []));
            k < |s.arena| && Link(s.arena, s.producers, |s.arena|)[k].outputs == [|s.arena|]
  {
    var cs := ChildrenOf(d);
    var s0 := Scan(a, [], "", []);
    var s := ScanChildren(d, 0, s0);
    ScanLists(d, 0, s0, |a|);
    IdsWhereOrigin(cs, 0, |a|, true);
    var j :| 0 <= j < |cs| && k == ChildId(cs, j, |a|) && Produces(cs[j]);
    ScanNodes(d, 0, s0, |a|);
    assert s.arena[k].outputs == [];
    IdsWhereIncreasing(cs, 0, |a|, true);
    LinkEffect(s.arena, s.producers, |s.arena|);
  }

  lemma {:induction false} BelowRootWf(d: Desc, a: seq<Node>, k: nat)
    requires d.children.Present?
    requires Wf(a)
    requires k < |Build(d, a)| - 1
    ensures NodeWf(Build(d, a), k)
    decreases d, 0, |ChildrenOf(d)| + 1
  {
    var s0 := Scan(a, [], "", []);
    var s := ScanChildren(d, 0, s0);
    var id := |s.arena|;
    var linked := Link(s.arena, s.producers, id);
    var g := linked + [Node(id, d.depth, d.iri, ResourceType(s.produced, ""), s.inputs, [])];
    assert Build(d, a) == g;
    assert NodeWf(s.arena, k) by {
      ScanWf(d, 0, s0);
    }
    assert g[k].id == s.arena[k].id && g[k].inputs == s.arena[k].inputs by {
      LinkKeeps(s.arena, s.producers, id);
    }
    if k in s.producers {
      ProducerOutputs(d, a, k);
      assert g[k] == linked[k];
    } else {
      LinkFrame(s.arena, s.producers, id, k);
      assert g[k] == s.arena[k];
    }
    assert NodeWf(g, k);
  }

  lemma {:induction false} ScanWf(d: Desc, i: nat, s: Scan)
    requires i <= |ChildrenOf(d)|
    requires Wf(s.arena)
    ensures Wf(ScanChildren(d, i, s).arena)
    decreases d, 0, |ChildrenOf(d)| - i
  {
    var cs := ChildrenOf(d);
    if i < |cs| {
      assert d.children == Present(cs) && cs[i] in cs;
      var arena := Build(cs[i].node, s.arena);
      BuildWf(cs[i].node, s.arena);
      var s' := ChildStep(d, i, s);
      forall k | 0 <= k < |s'.arena|
        ensures NodeWf(s'.arena, k)
      {
        assert NodeWf(arena, k);
        assert s'.arena[k].id == arena[k].id && s'.arena[k].inputs == arena[k].inputs &&
               s'.arena[k].outputs == arena[k].outputs;
      }
      ScanWf(d, i + 1, s');
    }
  }

  /** The node list of a whole description: one node per entry, numbered
      from 0 in the order the entries are finished, the top entry last. */
  function Graph(d: Desc): (g: seq<Node>)
    ensures |g| == Size(d)
  {
    Build(d, [])
  }

  /** The whole node list is well-formed and ends with the top entry's node. */
  lemma GraphShape(d: Desc)
    ensures Wf(Graph(d))
    ensures Graph(d)[Size(d) - 1] ==
            Node(Size(d) - 1, d.depth, d.iri, ResourceType(OutputTypeOf(d), ""), InputsOf(d, 0), [])
  {
    BuildWf(d, []);
    BuildRoot(d, []);
  }

  // -----------------------------------------------------------------------
  // Queries on one node (`var_name`, `step_name`, `is_dataset`, `is_step`,
  // `is_ctx_node`)
  // -----------------------------------------------------------------------

  /** `var_name(dtype)`: the context variable holding the node's data. */
  function VarName(n: Node, dtype: string): string
  {
    "datanode_" + NatToString(n.id) + "_" + dtype
  }

  /** `step_name()`. */
  function StepName(n: Node): string
  {
    "step_" + NatToString(n.id)
  }

  /** Variable names of different nodes, or of different data types, differ. */
  lemma VarNameInjective(m: Node, n: Node, s: string, t: string)
    ensures VarName(m, s) == VarName(n, t) ==> m.id == n.id && s == t
  {
    if VarName(m, s) == VarName(n, t) {
      assert VarName(m, s) == "datanode_" + NatToString(m.id) + ['_'] + s;
      assert VarName(n, t) == "datanode_" + NatToString(n.id) + ['_'] + t;
      NumberedNameInjective("datanode_", m.id, n.id, '_', s, t);
    }
  }

  /** Step names of different nodes differ. */
  lemma StepNameInjective(m: Node, n: Node)
    requires StepName(m) == StepName(n)
    ensures m.id == n.id
  {
    assert StepName(m) == "step_" + NatToString(m.id) + [];
    assert StepName(n) == "step_" + NatToString(n.id) + [];
    NumberedInjective("step_", m.id, n.id, []);
  }

  /** `is_step`: the node is the tool that produces another node. */
  predicate IsStep(n: Node)
  {
    |n.outputs| != 0
  }

  /** `is_ctx_node`: a node with an output type and no edges, whose data is
      taken from the execution context. */
  predicate IsCtxNode(n: Node)
  {
    n.resourceType.output != "" && |n.inputs| == 0 && |n.outputs| == 0
  }

  /** `is_dataset`: the node consumes exactly one node, and that one is a
      dataset. */
  predicate IsDataset(g: seq<Node>, n: Node)
    requires forall i :: 0 <= i < |n.inputs| ==> n.inputs[i] < |g|
  {
    |n.inputs| == 1 && g[n.inputs[0]].resourceType.output == Dataset
  }

  /** An entry consumes nothing exactly when all its children are tools. */
  lemma NoInputsIff(d: Desc, base: nat)
    ensures InputsOf(d, base) == [] <==> forall i :: 0 <= i < |ChildrenOf(d)| ==> Produces(ChildrenOf(d)[i])
  {
    var cs := ChildrenOf(d);
    IdsWhereOrigin(cs, 0, base, false);
    if InputsOf(d, base) != [] {
      assert InputsOf(d, base)[0] in InputsOf(d, base);
    }
    forall i | 0 <= i < |cs|
      ensures ChildId(cs, i, base) in InputsOf(d, base) <==> !Produces(cs[i])
    {
      IdsWhereMember(cs, 0, base, false, i);
    }
  }

  /** How the children of an entry are classified: a child is a step exactly
      when it is the entry's `hasOutput` tool, and a context node exactly when
      it is consumed, has an output type and consumes nothing itself. In
      particular every consumed leaf is a context node. */
  lemma ChildClassification(d: Desc, a: seq<Node>, j: nat)
    requires j < |ChildrenOf(d)|
    ensures var r := Build(d, a); var c := ChildrenOf(d)[j]; var cid := ChildId(ChildrenOf(d), j, |a|);
      cid < |r| &&
      var n := r[cid];
      && (IsStep(n) <==> Produces(c))
      && (IsCtxNode(n) <==>
            !Produces(c) && OutputTypeOf(c.node) != "" &&
            forall i :: 0 <= i < |ChildrenOf(c.node)| ==> Produces(ChildrenOf(c.node)[i]))
      && (!Produces(c) && c.node.children.Absent? ==> IsCtxNode(n) && n.resourceType.output == Dataset)
  {
    var cs := ChildrenOf(d);
    ChildFinal(d, a, j);
    NoInputsIff(cs[j].node, |a| + SizePrefix(cs, j));
  }

  /** The node of an entry is never a step while it is the last one built;
      it is a dataset exactly when it consumes a single child whose output
      type is "dataset". */
  lemma RootClassification(d: Desc, a: seq<Node>, j: nat)
    requires j < |ChildrenOf(d)| && !Produces(ChildrenOf(d)[j])
    ensures var r := Build(d, a); var root := r[|r| - 1];
      && !IsStep(root)
      && (forall i :: 0 <= i < |root.inputs| ==> root.inputs[i] < |r|)
      && (IsDataset(r, root) <==>
            |InputsOf(d, |a|)| == 1 && OutputTypeOf(ChildrenOf(d)[j].node) == Dataset)
  {
    var cs := ChildrenOf(d);
    var r := Build(d, a);
    BuildRoot(d, a);
    IdsWhereBounds(cs, 0, |a|, false);
    SizePrefixMono(cs, 0, |cs|);
    SizeSplit(d, 0);
    var ins := InputsOf(d, |a|);
    var root := r[|r| - 1];
    assert root.inputs == ins;
    assert |r| == |a| + SizePrefix(cs, |cs|) + 1;
    forall i | 0 <= i < |ins|
      ensures ins[i] < |r|
    {
      assert ins[i] in ins;
    }
    if |ins| == 1 {
      ChildFinal(d, a, j);
      IdsWhereMember(cs, 0, |a|, false, j);
      assert ins[0] == ChildId(cs, j, |a|);
      assert IsDataset(r, root) <==> OutputTypeOf(cs[j].node) == Dataset;
    }
  }

  // -----------------------------------------------------------------------
  // Every node of the list, placed in the description
  // -----------------------------------------------------------------------

  /** Which entry of the description a node stands for: the top entry, or a
      child entry under the entry it belongs to. */
  datatype Role = Top | Under(parent: Desc, child: Child)

  /** The role of every node built for `d`, in id order: the nodes of each
      child's block in turn, then the top entry. */
  function Roles(d: Desc): (r: seq<Role>)
    ensures |r| == Size(d)
    decreases d, 1
  {
    match d.children
    case Absent => [Top]
    case Present(_) =>
      SizeSplit(d, 0);
      ChildRoles(d, |ChildrenOf(d)|) + [Top]
  }

  /** The roles in the blocks of the children before `n`: each block ends
      with the child entry itself, under `d`. */
  function ChildRoles(d: Desc, n: nat): (r: seq<Role>)
    requires n <= |ChildrenOf(d)|
    ensures |r| == SizePrefix(ChildrenOf(d), n)
    decreases d, 0, n
  {
    if n == 0 then []
    else
      var cs := ChildrenOf(d);
      assert d.children == Present(cs) && cs[n - 1] in cs;
      var sub := Roles(cs[n - 1].node);
      ChildRoles(d, n - 1) + sub[..|sub| - 1] + [Under(d, cs[n - 1])]
  }

  /** Position `y` of child `j`'s block: the child itself at the end of the
      block, otherwise the role that position has in the child's own list. */
  lemma {:induction false} ChildRolesAt(d: Desc, n: nat, j: nat, y: nat)
    requires j < n <= |ChildrenOf(d)|
    requires y < Size(ChildrenOf(d)[j].node)
    ensures SizePrefix(ChildrenOf(d), j) + y < SizePrefix(ChildrenOf(d), n)
    ensures ChildRoles(d, n)[SizePrefix(ChildrenOf(d), j) + y] ==
            if y == Size(ChildrenOf(d)[j].node) - 1 then Under(d, ChildrenOf(d)[j])
            else Roles(ChildrenOf(d)[j].node)[y]
    decreases n
  {
    if j == n - 1 {
      ChildRolesLast(d, n, y);
    } else {
      var cs := ChildrenOf(d);
      if j + 1 < n - 1 {
        SizePrefixMono(cs, j + 1, n - 1);
      }
      ChildRolesAt(d, n - 1, j, y);
      ChildRolesEarlier(d, n, SizePrefix(cs, j) + y);
    }
  }

  /** The last block of the first `n` children's roles is child `n - 1`'s. */
  lemma ChildRolesLast(d: Desc, n: nat, y: nat)
    requires 0 < n <= |ChildrenOf(d)|
    requires y < Size(ChildrenOf(d)[n - 1].node)
    ensures SizePrefix(ChildrenOf(d), n - 1) + y < SizePrefix(ChildrenOf(d), n)
    ensures ChildRoles(d, n)[SizePrefix(ChildrenOf(d), n - 1) + y] ==
            if y == Size(ChildrenOf(d)[n - 1].node) - 1 then Under(d, ChildrenOf(d)[n - 1])
            else Roles(ChildrenOf(d)[n - 1].node)[y]
  {
    var cs := ChildrenOf(d);
    var prev := ChildRoles(d, n - 1);
    var sub := Roles(cs[n - 1].node);
    var mid := sub[..|sub| - 1];
    var own := Under(d, cs[n - 1]);
    assert ChildRoles(d, n) == prev + mid + [own];
    if y == |sub| - 1 {
      assert (prev + mid + [own])[|prev| + |mid|] == own;
    } else {
      assert (prev + mid + [own])[|prev| + y] == mid[y];
    }
  }

  /** Adding a child's block keeps the roles of the earlier blocks. */
  lemma ChildRolesEarlier(d: Desc, n: nat, k: nat)
    requires 0 < n <= |ChildrenOf(d)|
    requires k < SizePrefix(ChildrenOf(d), n - 1)
    ensures k < SizePrefix(ChildrenOf(d), n)
    ensures ChildRoles(d, n)[k] == ChildRoles(d, n - 1)[k]
  {
    var cs := ChildrenOf(d);
    var prev := ChildRoles(d, n - 1);
    var sub := Roles(cs[n - 1].node);
    var rest := sub[..|sub| - 1] + [Under(d, cs[n - 1])];
    assert ChildRoles(d, n) == prev + rest;
  }

  /** The final node `n` of child entry `c` under entry `p`: it keeps the
      child's depth and IRI, takes its output type, takes the parent's IRI as
      input type unless it is the parent's `hasOutput` tool, consumes nothing
      exactly when all of its own children are tools, and produces one node
      exactly when it is the parent's tool. */
  predicate Placed(n: Node, p: Desc, c: Child)
  {
    && n.depth == c.node.depth
    && n.iri == c.node.iri
    && n.resourceType == ResourceType(OutputTypeOf(c.node), if Produces(c) then "" else p.iri)
    && (n.inputs == [] <==> forall i :: 0 <= i < |ChildrenOf(c.node)| ==> Produces(ChildrenOf(c.node)[i]))
    && |n.outputs| == (if Produces(c) then 1 else 0)
  }

  /** A position inside child `j`'s block, before the child's own node, is
      the id of no child of `d`. */
  lemma NotChildId(cs: seq<Child>, base: nat, j: nat, x: nat)
    requires j < |cs| && base + SizePrefix(cs, j) <= x < ChildId(cs, j, base)
    ensures forall k :: 0 <= k < |cs| ==> x != ChildId(cs, k, base)
  {
    forall k | 0 <= k < |cs|
      ensures x != ChildId(cs, k, base)
    {
      if k + 1 < j {
        SizePrefixMono(cs, k + 1, j);
      } else if j < k {
        SizePrefixMono(cs, j + 1, k + 1);
      }
    }
  }

  /** Each child's block as the children loop leaves it: a node before the
      child's own node is final once the child has been built, and placed as
      its role in the child's list says. */
  lemma {:induction false} ScanPlaced(d: Desc, i: nat, s: Scan, base: nat, j: nat, x: nat)
    requires i <= j < |ChildrenOf(d)|
    requires |s.arena| == base + SizePrefix(ChildrenOf(d), i)
    requires base + SizePrefix(ChildrenOf(d), j) <= x < ChildId(ChildrenOf(d), j, base)
    ensures x < |ScanChildren(d, i, s).arena|
    ensures var cs := ChildrenOf(d); var role := Roles(cs[j].node)[x - (base + SizePrefix(cs, j))];
      role.Under? && Placed(ScanChildren(d, i, s).arena[x], role.parent, role.child)
    decreases d, 0, |ChildrenOf(d)| - i
  {
    var cs := ChildrenOf(d);
    assert d.children == Present(cs) && cs[i] in cs;
    var s' := ChildStep(d, i, s);
    var r := ScanChildren(d, i, s);
    assert r == ScanChildren(d, i + 1, s');
    if j == i {
      var arena := Build(cs[i].node, s.arena);
      BuildPlaced(cs[i].node, s.arena, x);
      assert s'.arena[x] == arena[x];
      assert r.arena[..|s'.arena|] == s'.arena;
      assert r.arena[x] == s'.arena[..][x];
    } else {
      ScanPlaced(d, i + 1, s', base, j, x);
    }
  }

  /** Every node built for `d` except its own is placed as the child entry
      its role names. */
  lemma {:induction false} BuildPlaced(d: Desc, a: seq<Node>, x: nat)
    requires |a| <= x < |a| + Size(d) - 1
    ensures var role := Roles(d)[x - |a|];
      role.Under? && Placed(Build(d, a)[x], role.parent, role.child)
    decreases d, 1
  {
    var cs := ChildrenOf(d);
    assert d.children.Present?;
    SizeSplit(d, 0);
    var j := BlockOf(cs, x - |a|);
    var y := x - |a| - SizePrefix(cs, j);
    ChildRolesAt(d, |cs|, j, y);
    assert Roles(d)[x - |a|] == ChildRoles(d, |cs|)[SizePrefix(cs, j) + y];
    if y == Size(cs[j].node) - 1 {
      ChildPlaced(d, a, j);
    } else {
      DeepPlaced(d, a, j, x);
    }
  }

  /** The node of child `j` itself is placed as that child under `d`. */
  lemma ChildPlaced(d: Desc, a: seq<Node>, j: nat)
    requires j < |ChildrenOf(d)|
    ensures var cs := ChildrenOf(d);
      ChildId(cs, j, |a|) < |Build(d, a)| && Placed(Build(d, a)[ChildId(cs, j, |a|)], d, cs[j])
  {
    var cs := ChildrenOf(d);
    ChildFinal(d, a, j);
    NoInputsIff(cs[j].node, |a| + SizePrefix(cs, j));
  }

  /** A node inside child `j`'s block, before the child's own node, is
      placed as its role in the child's own list says. */
  lemma {:induction false} DeepPlaced(d: Desc, a: seq<Node>, j: nat, x: nat)
    requires j < |ChildrenOf(d)|
    requires |a| + SizePrefix(ChildrenOf(d), j) <= x < ChildId(ChildrenOf(d), j, |a|)
    ensures x < |Build(d, a)|
    ensures var cs := ChildrenOf(d); var role := Roles(cs[j].node)[x - (|a| + SizePrefix(cs, j))];
      role.Under? && Placed(Build(d, a)[x], role.parent, role.child)
    decreases d, 0, |ChildrenOf(d)| + 1
  {
    var s0 := Scan(a, [], "", []);
    ScanPlaced(d, 0, s0, |a|, j, x);
    NotProducer(d, a, j, x);
  }

  /** A node inside child `j`'s block, before the child's own node, is no
      producer of `d`, so linking leaves it as the children loop left it. */
  lemma NotProducer(d: Desc, a: seq<Node>, j: nat, x: nat)
    requires j < |ChildrenOf(d)|
    requires |a| + SizePrefix(ChildrenOf(d), j) <= x < ChildId(ChildrenOf(d), j, |a|)
    ensures var s := ScanChildren(d, 0, Scan(a, [], "", []));
      x < |s.arena| && Build(d, a)[x] == s.arena[x]
  {
    var cs := ChildrenOf(d);
    assert d.children.Present?;
    var s0 := Scan(a, [], "", []);
    var s := ScanChildren(d, 0, s0);
    SizeSplit(d, 0);
    if j + 1 < |cs| {
      SizePrefixMono(cs, j + 1, |cs|);
    }
    assert x < |s.arena|;
    ScanLists(d, 0, s0, |a|);
    IdsWhereOrigin(cs, 0, |a|, true);
    NotChildId(cs, |a|, j, x);
    assert x !in s.producers;
    LinkFrame(s.arena, s.producers, |s.arena|, x);
    var g := Link(s.arena, s.producers, |s.arena|) +
             [Node(|s.arena|, d.depth, d.iri, ResourceType(s.produced, ""), s.inputs, [])];
    assert Build(d, a) == g;
  }

  /** The block a position among the children's blocks falls in. */
  lemma {:induction false} BlockOf(cs: seq<Child>, y: nat) returns (j: nat)
    requires y < SizePrefix(cs, |cs|)
    ensures j < |cs| && SizePrefix(cs, j) <= y < SizePrefix(cs, j + 1)
    decreases |cs|
  {
    var n := |cs| - 1;
    if SizePrefix(cs, n) <= y {
      j := n;
    } else {
      assert SizePrefix(cs[..n], n) == SizePrefix(cs, n) by {
        PrefixSizes(cs, n, n);
      }
      j := BlockOf(cs[..n], y);
      PrefixSizes(cs, n, j);
      PrefixSizes(cs, n, j + 1);
    }
  }

  /** Cutting the children after `n` keeps the sizes of the first `k` blocks. */
  lemma {:induction false} PrefixSizes(cs: seq<Child>, n: nat, k: nat)
    requires k <= n <= |cs|
    ensures SizePrefix(cs[..n], k) == SizePrefix(cs, k)
    decreases k
  {
    if k > 0 {
      PrefixSizes(cs, n, k - 1);
    }
  }

  /** The node list of a whole description, placed: the top entry's node is
      last, and every other node is the final node of the child entry its
      role names, under that role's parent entry. */
  lemma GraphPlaced(d: Desc)
    ensures Roles(d)[Size(d) - 1] == Top
    ensures forall x :: 0 <= x < Size(d) - 1 ==>
              Roles(d)[x].Under? && Placed(Graph(d)[x], Roles(d)[x].parent, Roles(d)[x].child)
  {
    forall x | 0 <= x < Size(d) - 1
      ensures Roles(d)[x].Under? && Placed(Graph(d)[x], Roles(d)[x].parent, Roles(d)[x].child)
    {
      BuildPlaced(d, [], x);
    }
  }

  /** How every node of the whole list is classified: a node is a step
      exactly when it stands for a `hasOutput` child; it is a context node
      exactly when it stands for a consumed child with an output type all of
      whose own children are tools; every consumed leaf is a context node
      holding a dataset; and the top entry's node is no step. */
  lemma GraphClassification(d: Desc, x: nat)
    requires x < Size(d)
    ensures var n := Graph(d)[x]; var role := Roles(d)[x];
      && (IsStep(n) <==> role.Under? && Produces(role.child))
      && (role.Under? ==>
            && (IsCtxNode(n) <==>
                  !Produces(role.child) && OutputTypeOf(role.child.node) != "" &&
                  forall i :: 0 <= i < |ChildrenOf(role.child.node)| ==> Produces(ChildrenOf(role.child.node)[i]))
            && (!Produces(role.child) && role.child.node.children.Absent? ==>
                  IsCtxNode(n) && n.resourceType.output == Dataset))
  {
    GraphPlaced(d);
    if x == Size(d) - 1 {
      GraphShape(d);
    }
  }

  // -----------------------------------------------------------------------
  // The shared node list, updated in place
  // -----------------------------------------------------------------------

  /** The `nodes` accumulator that `Node.__init__` appends to. */
  class NodeArena {
    var nodes: seq<Node>

    constructor ()
      ensures nodes == []
    {
      nodes := [];
    }

    /** `Node(data, nodes)`: builds the children first, links them to the new
        node, appends the new node and returns its id. */
    method AddNode(d: Desc) returns (id: nat)
      modifies this
      ensures nodes == Build(d, old(nodes))
      ensures id == |nodes| - 1
      decreases d, 1
    {
      match d.children {
        case Absent =>
          id := |nodes|;
          nodes := nodes + [Node(id, d.depth, d.iri, ResourceType(Dataset, ""), [], [])];
        case Present(_) =>
          var inputs, produced, producers := AddChildren(d);
          id := |nodes|;
          LinkProducers(producers, id);
          nodes := nodes + [Node(id, d.depth, d.iri, ResourceType(produced, ""), inputs, [])];
      }
    }

    /** The children loop of `Node.__init__`: builds each child in turn and
        records it as a producer (`hasOutput`) or as a consumed input. */
    method AddChildren(d: Desc) returns (inputs: seq<nat>, produced: string, producers: seq<nat>)
      modifies this
      ensures forall p :: p in producers ==> p < |nodes|
      ensures Scan(nodes, inputs, produced, producers) == ScanChildren(d, 0, Scan(old(nodes), [], "", []))
      decreases d, 0
    {
      var cs := ChildrenOf(d);
      ghost var start := Scan(nodes, [], "", []);
      inputs, produced, producers := [], "", [];
      var i := 0;
      while i < |cs|
        invariant 0 <= i <= |cs|
        invariant forall p :: p in producers ==> p < |nodes|
        invariant ScanChildren(d, i, Scan(nodes, inputs, produced, producers)) == ScanChildren(d, 0, start)
      {
        var child := cs[i];
        assert d.children == Present(cs) && child in cs;
        var cid := AddNode(child.node);
        if child.relation == HasOutput {
          producers := producers + [cid];
          produced := child.node.iri;
        } else {
          inputs := inputs + [cid];
          nodes := Consume(nodes, cid, d.iri);
        }
        i := i + 1;
      }
    }

    /** Every producer records the new parent as one of its outputs. */
    method LinkProducers(ps: seq<nat>, parent: nat)
      requires forall p :: p in ps ==> p < |nodes|
      modifies this
      ensures nodes == Link(old(nodes), ps, parent)
    {
      ghost var before := nodes;
      var j := 0;
      while j < |ps|
        invariant 0 <= j <= |ps|
        invariant |nodes| == |before|
        invariant forall p :: p in ps[j..] ==> p in ps
        invariant Link(nodes, ps[j..], parent) == Link(before, ps, parent)
      {
        var p := ps[j];
        assert p in ps && ps[j..][0] == p && ps[j..][1..] == ps[j + 1..];
        nodes := nodes[p := nodes[p].(outputs := nodes[p].outputs + [parent])];
        j := j + 1;
      }
    }
  }
}
