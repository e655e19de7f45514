/**
 * The pipeline merger of exercise-configuration compilation. For every test
 * it turns each pipeline into a graph with one node per box, joined by edges
 * keyed by variable name. It then folds the pipeline graphs left to right.
 * A data-out node of the accumulated tree and a data-in node of the next
 * pipeline that carry the same variable are cut out and replaced by a
 * box-less join node.
 */
module PipelinesMerger {
  import opened Wrappers
  import opened PhpArray
  import opened Ports
  import opened ExerciseConfigs
  import opened Tree

  // ---------------------------------------------------------------------
  // Indexing a pipeline: last write wins
  // ---------------------------------------------------------------------

  /** The last of the first `i` boxes named `name`, or -1. */
  function LastNamed(bs: seq<Box>, i: nat, name: string): (k: int)
    requires i <= |bs|
    ensures -1 <= k < i
    ensures k >= 0 ==> bs[k].name == name
  {
    if i == 0 then -1 else if bs[i - 1].name == name then i - 1 else LastNamed(bs, i - 1, name)
  }

  /** The last of the first `i` boxes with an output port bound to `v`, or -1. */
  function LastProducer(bs: seq<Box>, i: nat, v: string): (k: int)
    requires i <= |bs|
    ensures -1 <= k < i
    ensures k >= 0 ==> Produces(bs[k], v)
  {
    if i == 0 then -1 else if Produces(bs[i - 1], v) then i - 1 else LastProducer(bs, i - 1, v)
  }

  /** The last of the first `i` boxes with an input port bound to `v`, or -1. */
  function LastConsumer(bs: seq<Box>, i: nat, v: string): (k: int)
    requires i <= |bs|
    ensures -1 <= k < i
    ensures k >= 0 ==> Consumes(bs[k], v)
  {
    if i == 0 then -1 else if Consumes(bs[i - 1], v) then i - 1 else LastConsumer(bs, i - 1, v)
  }

  predicate UniqueNames(bs: seq<Box>) {
    forall i, j :: 0 <= i < j < |bs| ==> bs[i].name != bs[j].name
  }

  /**
   * What the merger needs of a pipeline and does not check ("no validations
   * take place here"): every bound input variable has a producing box and
   * every bound output variable a consuming box. Otherwise the source
   * indexes a missing array entry and fails.
   */
  ghost predicate Closed(bs: seq<Box>) {
    (forall k, j :: 0 <= k < |bs| && 0 <= j < |bs[k].inputs| && BoundVar(bs[k].inputs[j]).Some? ==>
       LastProducer(bs, |bs|, BoundVar(bs[k].inputs[j]).value) >= 0) &&
    (forall k, j :: 0 <= k < |bs| && 0 <= j < |bs[k].outputs| && BoundVar(bs[k].outputs[j]).Some? ==>
       LastConsumer(bs, |bs|, BoundVar(bs[k].outputs[j]).value) >= 0)
  }

  /** The boxes of one role, in pipeline order (`getDataInBoxes()` and its siblings). */
  function BoxesWithRole(bs: seq<Box>, role: BoxRole): (r: seq<Box>)
    ensures forall b :: b in r <==> b in bs && b.role == role
    ensures |r| <= |bs|
  {
    if bs == [] then []
    else if bs[0].role == role then [bs[0]] + BoxesWithRole(bs[1..], role)
    else BoxesWithRole(bs[1..], role)
  }

  /** The node `$nodes[$box->getName()]` of each box of `sub`: the last box of that name. */
  function NodesFor(sub: seq<Box>, bs: seq<Box>, base: nat): (r: seq<NodeId>)
    requires forall b :: b in sub ==> b in bs
    ensures |r| == |sub|
    ensures forall i :: 0 <= i < |sub| ==> r[i] == base + LastNamed(bs, |bs|, sub[i].name)
  {
    if sub == [] then []
    else
      NamedFound(bs, sub[|sub| - 1]);
      NodesFor(sub[..|sub| - 1], bs, base) + [base + LastNamed(bs, |bs|, sub[|sub| - 1].name)]
  }

  /** `$nodes[$box->getName()]` of a box of the pipeline is the node of the last box of that name. */
  lemma NodeOf(bs: seq<Box>, base: nat, nodes: map<string, NodeId>, b: Box)
    requires NodesIndexed(bs, base, |bs|, nodes) && b in bs
    ensures b.name in nodes && nodes[b.name] == base + LastNamed(bs, |bs|, b.name)
  {
    NamedFound(bs, b);
  }

  /** Every box of the pipeline has an entry in the by-name index. */
  lemma NamedFound(bs: seq<Box>, b: Box)
    requires b in bs
    ensures LastNamed(bs, |bs|, b.name) >= 0
  {
    var x :| 0 <= x < |bs| && bs[x] == b;
    NamedAfter(bs, |bs|, x);
  }

  /** The last box named like box `x` is box `x` or a later one. */
  lemma {:induction false} NamedAfter(bs: seq<Box>, i: nat, x: nat)
    requires x < i <= |bs|
    ensures LastNamed(bs, i, bs[x].name) >= x
  {
    if bs[i - 1].name != bs[x].name {
      NamedAfter(bs, i - 1, x);
    }
  }

  /** The tree `buildPipelineTree` returns for boxes `bs` whose nodes start at `base`. */
  function Classify(bs: seq<Box>, base: nat): MergeTree {
    MergeTree(NodesFor(BoxesWithRole(bs, DataInRole), bs, base),
              NodesFor(BoxesWithRole(bs, DataOutRole), bs, base),
              NodesFor(BoxesWithRole(bs, OtherRole), bs, base))
  }

  /** The ids `base`, ..., `base + count - 1`. */
  function NewIds(base: nat, count: nat): (r: set<NodeId>)
    ensures forall n :: n in r <==> base <= n < base + count
  {
    if count == 0 then {} else NewIds(base, count - 1) + {base + (count - 1)}
  }

  /** The edge invariants the linking loop keeps. */
  ghost predicate Wired(bs: seq<Box>, base: nat, P: Edges, C: Edges) {
    KeysBound(base, P, C) &&
    (UniqueNames(bs) ==> Sound(bs, base, P, C)) &&
    (UniqueNames(bs) && SingleProducer(bs) ==> Symmetric(base, P, C))
  }

  /** An edge the linking loop may add: when box names are unique it joins a producer to a consumer. */
  ghost predicate Linkable(bs: seq<Box>, base: nat, m: NodeId, v: string, n: NodeId) {
    UniqueNames(bs) ==> EdgeOk(bs, base, m, v, n)
  }

  /** The by-name node index after the first `i` boxes. */
  ghost predicate NodesIndexed(bs: seq<Box>, base: nat, i: nat, nodes: map<string, NodeId>)
    requires i <= |bs|
  {
    (forall name :: name in nodes <==> LastNamed(bs, i, name) >= 0) &&
    (forall name :: name in nodes ==> nodes[name] == base + LastNamed(bs, i, name))
  }

  /** `$variables[$v][0]` after the first `i` boxes: the last consumer of `v`. */
  ghost predicate ConsumersIndexed(bs: seq<Box>, i: nat, consumers: map<string, string>)
    requires i <= |bs|
  {
    (forall v :: v in consumers <==> LastConsumer(bs, i, v) >= 0) &&
    (forall v :: v in consumers ==> consumers[v] == bs[LastConsumer(bs, i, v)].name)
  }

  /** `$variables[$v][1]` after the first `i` boxes: the last producer of `v`. */
  ghost predicate ProducersIndexed(bs: seq<Box>, i: nat, producers: map<string, string>)
    requires i <= |bs|
  {
    (forall v :: v in producers <==> LastProducer(bs, i, v) >= 0) &&
    (forall v :: v in producers ==> producers[v] == bs[LastProducer(bs, i, v)].name)
  }

  lemma BindsSnoc(ports: seq<Port>, j: nat, v: string)
    requires j < |ports|
    ensures Binds(ports[..j + 1], v) <==> Binds(ports[..j], v) || BoundVar(ports[j]) == Some(v)
  {
    if BoundVar(ports[j]) == Some(v) {
      assert ports[..j + 1][j] == ports[j];
    }
    if Binds(ports[..j + 1], v) {
      var x :| 0 <= x < j + 1 && BoundVar(ports[..j + 1][x]) == Some(v);
      if x < j {
        assert ports[..j][x] == ports[..j + 1][x];
      }
    }
    if Binds(ports[..j], v) {
      var x :| 0 <= x < j && BoundVar(ports[..j][x]) == Some(v);
      assert ports[..j + 1][x] == ports[..j][x];
    }
  }

  /**
   * One box's ports in the variable index (lines 141-150 for inputs, 151-160
   * for outputs): every bound variable now maps to the box name; ports with
   * an empty variable are skipped.
   */
  method IndexPorts(vars: map<string, string>, ports: seq<Port>, name: string) returns (r: map<string, string>)
    ensures forall v :: v in r <==> v in vars || Binds(ports, v)
    ensures forall v :: v in r ==> r[v] == if Binds(ports, v) then name else vars[v]
    ensures r == PortIndex(vars, ports, name)
  {
    r := vars;
    for j := 0 to |ports|
      invariant forall v :: v in r <==> v in vars || Binds(ports[..j], v)
      invariant forall v :: v in r ==> r[v] == if Binds(ports[..j], v) then name else vars[v]
      invariant r == PortIndex(vars, ports[..j], name)
    {
      assert ports[..j + 1][..j] == ports[..j];
      forall v {
        BindsSnoc(ports, j, v);
      }
      var varName := ports[j].meta.variable;
      if IsEmpty(varName) {
        continue;
      }
      r := r[varName.value := name];
    }
    assert ports[..|ports|] == ports;
  }

  lemma NodesIndexedStep(bs: seq<Box>, base: nat, i: nat, nodes: map<string, NodeId>)
    requires i < |bs| && NodesIndexed(bs, base, i, nodes)
    ensures NodesIndexed(bs, base, i + 1, nodes[bs[i].name := base + i])
  {
  }

  /** Indexing the ports of box `i` extends a variable index of the first `i` boxes to the first `i + 1`. */
  lemma PortsIndexedStep(bs: seq<Box>, i: nat, vars: map<string, string>, r: map<string, string>, inputs: bool)
    requires i < |bs|
    requires inputs ==> ConsumersIndexed(bs, i, vars)
    requires !inputs ==> ProducersIndexed(bs, i, vars)
    requires var ports := if inputs then bs[i].inputs else bs[i].outputs;
             (forall v :: v in r <==> v in vars || Binds(ports, v)) &&
             (forall v :: v in r ==> r[v] == if Binds(ports, v) then bs[i].name else vars[v])
    ensures inputs ==> ConsumersIndexed(bs, i + 1, r)
    ensures !inputs ==> ProducersIndexed(bs, i + 1, r)
  {
  }

  /** The by-name index after the first `i` boxes (lines 138-140): a later box of the same name wins. */
  function NodeIndex(bs: seq<Box>, base: nat, i: nat): map<string, NodeId>
    requires i <= |bs|
  {
    if i == 0 then map[] else NodeIndex(bs, base, i - 1)[bs[i - 1].name := base + (i - 1)]
  }

  /** `vars` with every variable bound by one of `ports` mapped to `name`. */
  function PortIndex(vars: map<string, string>, ports: seq<Port>, name: string): map<string, string>
    decreases |ports|
  {
    if ports == [] then vars
    else
      var r := PortIndex(vars, ports[..|ports| - 1], name);
      match BoundVar(ports[|ports| - 1])
      case None => r
      case Some(v) => r[v := name]
  }

  /** Slot 0 of the variable index after the first `i` boxes (lines 141-150). */
  function ConsumerIndex(bs: seq<Box>, i: nat): map<string, string>
    requires i <= |bs|
  {
    if i == 0 then map[] else PortIndex(ConsumerIndex(bs, i - 1), bs[i - 1].inputs, bs[i - 1].name)
  }

  /** Slot 1 of the variable index after the first `i` boxes (lines 151-160). */
  function ProducerIndex(bs: seq<Box>, i: nat): map<string, string>
    requires i <= |bs|
  {
    if i == 0 then map[] else PortIndex(ProducerIndex(bs, i - 1), bs[i - 1].outputs, bs[i - 1].name)
  }

  /** Under unique names, the node of a box's name is that box's own node. */
  lemma NamedUnique(bs: seq<Box>, k: nat)
    requires UniqueNames(bs) && k < |bs|
    ensures LastNamed(bs, |bs|, bs[k].name) == k
  {
    NamedAfter(bs, |bs|, k);
  }

  /** Linking a bound variable between two new nodes keeps the edge invariants. */
  lemma LinkKeepsWired(bs: seq<Box>, base: nat, P: Edges, C: Edges, m: NodeId, v: string, n: NodeId)
    requires m in C && n in P
    requires forall x :: base <= x < base + |bs| ==> x in P
    requires Wired(bs, base, P, C) && !IsEmpty(Some(v))
    requires Linkable(bs, base, m, v, n)
    ensures Wired(bs, base, LinkEdges(P, C, m, v, n).0, LinkEdges(P, C, m, v, n).1)
  {
    LinkKeepsKeysBound(base, P, C, m, v, n);
    if UniqueNames(bs) {
      LinkKeepsSound(bs, base, P, C, m, v, n);
      if SingleProducer(bs) {
        LinkKeepsSymmetric(bs, base, P, C, m, v, n);
      }
    }
  }


  /** The node indexed under the name of box `p`: a node of the pipeline, box `p`'s own when names are unique. */
  lemma NodeNamed(bs: seq<Box>, base: nat, nodes: map<string, NodeId>, p: int)
    requires 0 <= p < |bs| && NodesIndexed(bs, base, |bs|, nodes)
    ensures bs[p].name in nodes && base <= nodes[bs[p].name] < base + |bs|
    ensures UniqueNames(bs) ==> nodes[bs[p].name] == base + p
  {
    NamedFound(bs, bs[p]);
    if UniqueNames(bs) {
      NamedUnique(bs, p);
    }
  }

  /** The producer lookup of line 172 for a variable consumed by box `k` succeeds, and names a producer of it when names are unique. */
  lemma ProducerFound(bs: seq<Box>, base: nat, k: int, v: string, p: int, nodes: map<string, NodeId>, producers: map<string, string>)
    requires 0 <= k < |bs| && Consumes(bs[k], v)
    requires p == LastProducer(bs, |bs|, v) && p >= 0 && v in producers && producers[v] == bs[p].name
    requires NodesIndexed(bs, base, |bs|, nodes)
    ensures var r := Lookup(nodes, producers, v);
            r.Some? && base <= r.value < base + |bs| && Linkable(bs, base, r.value, v, base + k)
  {
    NodeNamed(bs, base, nodes, p);
    var n := nodes[bs[p].name];
    assert Lookup(nodes, producers, v) == Some(n);
    if UniqueNames(bs) {
      assert n - base == p;
      assert EdgeOk(bs, base, n, v, base + k);
    }
  }

  /** The consumer lookup of line 184 for a variable produced by box `k` succeeds, and names a consumer of it when names are unique. */
  lemma ConsumerFound(bs: seq<Box>, base: nat, k: int, v: string, c: int, nodes: map<string, NodeId>, consumers: map<string, string>)
    requires 0 <= k < |bs| && Produces(bs[k], v)
    requires c == LastConsumer(bs, |bs|, v) && c >= 0 && v in consumers && consumers[v] == bs[c].name
    requires NodesIndexed(bs, base, |bs|, nodes)
    ensures var r := Lookup(nodes, consumers, v);
            r.Some? && base <= r.value < base + |bs| && Linkable(bs, base, base + k, v, r.value)
  {
    NodeNamed(bs, base, nodes, c);
    var n := nodes[bs[c].name];
    assert Lookup(nodes, consumers, v) == Some(n);
    if UniqueNames(bs) {
      assert n - base == c;
      assert EdgeOk(bs, base, base + k, v, n);
    }
  }

  // ---------------------------------------------------------------------
  // buildPipelineTree, linking phase: its specification
  // ---------------------------------------------------------------------

  /** Parent edges and child edges of every node. */
  type EdgeMaps = (Edges, Edges)

  /** `$nodes[$variables[$v][slot]]`, None when either index lacks the entry. */
  function Lookup(nodes: map<string, NodeId>, index: map<string, string>, v: string): Option<NodeId> {
    if v in index && index[v] in nodes then Some(nodes[index[v]]) else None
  }

  /** `m` becomes a parent of `n` under `v` and `n` a child of `m`; an unallocated end changes nothing. */
  function LinkStep(E: EdgeMaps, m: NodeId, v: string, n: NodeId): (r: EdgeMaps)
  {
    if m in E.1 && n in E.0 then LinkEdges(E.0, E.1, m, v, n) else E
  }

  /**
   * Lines 168-177 for one input port of `node`: a port bound to `v` makes
   * the producer of `v` a parent of `node`, unless the producer is in the tree.
   */
  function InputStep(E: EdgeMaps, node: NodeId, p: Port, nodes: map<string, NodeId>,
                     producers: map<string, string>, inTree: set<NodeId>): (r: EdgeMaps)
  {
    match BoundVar(p)
    case None => E
    case Some(v) =>
      match Lookup(nodes, producers, v)
      case None => E
      case Some(parent) => if parent in inTree then E else LinkStep(E, parent, v, node)
  }

  /**
   * Line 189 read two ways. As written it passes `addParent` no node; the
   * Node class is not part of this model, and the reading `AsWritten`
   * assumes that such a call records no parent (a Node whose `addParent`
   * requires the node would throw there instead, and one that defaults it
   * to null would record a null parent). Corrected, it records the
   * producing node as the consumer's parent, as line 176 does for inputs.
   */
  datatype Line189 = AsWritten | Corrected

  /** `n` becomes a child of `m` under `v` and nothing else changes: line 189 as written. */
  function ChildStep(E: EdgeMaps, m: NodeId, v: string, n: NodeId): (r: EdgeMaps)
  {
    if m in E.1 && n in E.0 then (E.0, E.1[m := Put(E.1[m], v, n)]) else E
  }

  /**
   * Lines 180-189 for one output port of `node`: the consumer of `v`
   * becomes a child of `node`, unless the consumer is in the tree; whether
   * `node` also becomes the consumer's parent depends on how line 189 is read.
   */
  function OutputStep(E: EdgeMaps, node: NodeId, p: Port, nodes: map<string, NodeId>,
                      consumers: map<string, string>, inTree: set<NodeId>, line189: Line189): (r: EdgeMaps)
  {
    match BoundVar(p)
    case None => E
    case Some(v) =>
      match Lookup(nodes, consumers, v)
      case None => E
      case Some(child) =>
        if child in inTree then E
        else if line189 == Corrected then LinkStep(E, node, v, child)
        else ChildStep(E, node, v, child)
  }

  /** The input ports of `node`, in order. */
  function InputSteps(E: EdgeMaps, node: NodeId, ports: seq<Port>, nodes: map<string, NodeId>,
                      producers: map<string, string>, inTree: set<NodeId>): (r: EdgeMaps)
    decreases |ports|
  {
    if ports == [] then E
    else InputStep(InputSteps(E, node, ports[..|ports| - 1], nodes, producers, inTree),
                   node, ports[|ports| - 1], nodes, producers, inTree)
  }

  /** The output ports of `node`, in order. */
  function OutputSteps(E: EdgeMaps, node: NodeId, ports: seq<Port>, nodes: map<string, NodeId>,
                       consumers: map<string, string>, inTree: set<NodeId>, line189: Line189): (r: EdgeMaps)
    decreases |ports|
  {
    if ports == [] then E
    else OutputStep(OutputSteps(E, node, ports[..|ports| - 1], nodes, consumers, inTree, line189),
                    node, ports[|ports| - 1], nodes, consumers, inTree, line189)
  }

  /** One node of the queue: its input ports, then its output ports. */
  function NodeLinks(E: EdgeMaps, node: NodeId, b: Box, nodes: map<string, NodeId>, consumers: map<string, string>,
                     producers: map<string, string>, inTree: set<NodeId>, line189: Line189): EdgeMaps
  {
    OutputSteps(InputSteps(E, node, b.inputs, nodes, producers, inTree), node, b.outputs, nodes, consumers, inTree, line189)
  }

  /**
   * The first `i` nodes of the queue. Node `base + k` is linked while the
   * nodes before it, and only those, have been marked in the tree.
   */
  function AllLinks(E: EdgeMaps, bs: seq<Box>, base: nat, i: nat, nodes: map<string, NodeId>, consumers: map<string, string>,
                    producers: map<string, string>, inTree: set<NodeId>, line189: Line189): (r: EdgeMaps)
    requires i <= |bs|
    decreases i, 2
  {
    if i == 0 then E else LinkNext(E, bs, base, i, nodes, consumers, producers, inTree, line189)
  }

  /**
   * Node `base + i - 1` linked after the nodes before it. LinkNext and
   * LinkLast are one step split in two, so that unfolding AllLinks does not
   * reach the linking of a single node unless a proof asks for it.
   */
  function LinkNext(E: EdgeMaps, bs: seq<Box>, base: nat, i: nat, nodes: map<string, NodeId>, consumers: map<string, string>,
                    producers: map<string, string>, inTree: set<NodeId>, line189: Line189): EdgeMaps
    requires 0 < i <= |bs|
    decreases i, 1
  {
    LinkLast(E, bs, base, i, nodes, consumers, producers, inTree, line189)
  }

  function LinkLast(E: EdgeMaps, bs: seq<Box>, base: nat, i: nat, nodes: map<string, NodeId>, consumers: map<string, string>,
                    producers: map<string, string>, inTree: set<NodeId>, line189: Line189): EdgeMaps
    requires 0 < i <= |bs|
    decreases i, 0
  {
    var prev := AllLinks(E, bs, base, i - 1, nodes, consumers, producers, inTree, line189);
    NodeLinks(prev, base + (i - 1), bs[i - 1], nodes, consumers, producers, inTree + NewIds(base, i - 1), line189)
  }

  lemma AllLinksNext(E: EdgeMaps, bs: seq<Box>, base: nat, i: nat, nodes: map<string, NodeId>, consumers: map<string, string>,
                     producers: map<string, string>, inTree: set<NodeId>, line189: Line189)
    requires 0 < i <= |bs|
    ensures AllLinks(E, bs, base, i, nodes, consumers, producers, inTree, line189) ==
            NodeLinks(AllLinks(E, bs, base, i - 1, nodes, consumers, producers, inTree, line189),
                      base + (i - 1), bs[i - 1], nodes, consumers, producers, inTree + NewIds(base, i - 1), line189)
  {
    assert AllLinks(E, bs, base, i, nodes, consumers, producers, inTree, line189) ==
           LinkNext(E, bs, base, i, nodes, consumers, producers, inTree, line189) ==
           LinkLast(E, bs, base, i, nodes, consumers, producers, inTree, line189);
  }

  // ---------------------------------------------------------------------
  // buildPipelineTree, linking phase: the invariants it keeps
  // ---------------------------------------------------------------------

  /** Every lookup of the linking phase succeeds and lands on a node of the pipeline. */
  predicate Found(p: Port, nodes: map<string, NodeId>, index: map<string, string>, lo: nat, hi: nat) {
    BoundVar(p).Some? ==>
      Lookup(nodes, index, BoundVar(p).value).Some? && lo <= Lookup(nodes, index, BoundVar(p).value).value < hi
  }

  ghost predicate AllFound(bs: seq<Box>, base: nat, nodes: map<string, NodeId>,
                           consumers: map<string, string>, producers: map<string, string>) {
    (forall k, j :: 0 <= k < |bs| && 0 <= j < |bs[k].inputs| ==> Found(bs[k].inputs[j], nodes, producers, base, base + |bs|)) &&
    (forall k, j :: 0 <= k < |bs| && 0 <= j < |bs[k].outputs| ==> Found(bs[k].outputs[j], nodes, consumers, base, base + |bs|))
  }

  /** Every edge the linking phase may add satisfies Linkable. */
  ghost predicate AllLinkable(bs: seq<Box>, base: nat, nodes: map<string, NodeId>,
                              consumers: map<string, string>, producers: map<string, string>) {
    (forall k, j :: (0 <= k < |bs| && 0 <= j < |bs[k].inputs| && BoundVar(bs[k].inputs[j]).Some? &&
                     Lookup(nodes, producers, BoundVar(bs[k].inputs[j]).value).Some?) ==>
       Linkable(bs, base, Lookup(nodes, producers, BoundVar(bs[k].inputs[j]).value).value, BoundVar(bs[k].inputs[j]).value, base + k)) &&
    (forall k, j :: (0 <= k < |bs| && 0 <= j < |bs[k].outputs| && BoundVar(bs[k].outputs[j]).Some? &&
                     Lookup(nodes, consumers, BoundVar(bs[k].outputs[j]).value).Some?) ==>
       Linkable(bs, base, base + k, BoundVar(bs[k].outputs[j]).value, Lookup(nodes, consumers, BoundVar(bs[k].outputs[j]).value).value))
  }

  /** Under the merger's assumption on the pipeline, every lookup succeeds and every link is Linkable. */
  lemma ClosedFound(bs: seq<Box>, base: nat, nodes: map<string, NodeId>,
                    consumers: map<string, string>, producers: map<string, string>)
    requires NodesIndexed(bs, base, |bs|, nodes) && Closed(bs)
    requires ConsumersIndexed(bs, |bs|, consumers) && ProducersIndexed(bs, |bs|, producers)
    ensures AllFound(bs, base, nodes, consumers, producers)
    ensures AllLinkable(bs, base, nodes, consumers, producers)
  {
    forall k, j | 0 <= k < |bs| && 0 <= j < |bs[k].inputs| && BoundVar(bs[k].inputs[j]).Some?
      ensures Found(bs[k].inputs[j], nodes, producers, base, base + |bs|)
      ensures Linkable(bs, base, Lookup(nodes, producers, BoundVar(bs[k].inputs[j]).value).value, BoundVar(bs[k].inputs[j]).value, base + k)
    {
      var v := BoundVar(bs[k].inputs[j]).value;
      assert Consumes(bs[k], v);
      ProducerFound(bs, base, k, v, LastProducer(bs, |bs|, v), nodes, producers);
    }
    forall k, j | 0 <= k < |bs| && 0 <= j < |bs[k].outputs| && BoundVar(bs[k].outputs[j]).Some?
      ensures Found(bs[k].outputs[j], nodes, consumers, base, base + |bs|)
      ensures Linkable(bs, base, base + k, BoundVar(bs[k].outputs[j]).value, Lookup(nodes, consumers, BoundVar(bs[k].outputs[j]).value).value)
    {
      var v := BoundVar(bs[k].outputs[j]).value;
      assert Produces(bs[k], v);
      ConsumerFound(bs, base, k, v, LastConsumer(bs, |bs|, v), nodes, consumers);
    }
  }

  /** The edge invariants together with: every node of the pipeline has both edge arrays. */
  ghost predicate Inv(bs: seq<Box>, base: nat, E: EdgeMaps) {
    Wired(bs, base, E.0, E.1) && forall x :: base <= x < base + |bs| ==> x in E.0 && x in E.1
  }

  /** The edge arrays of the nodes below `base` are as in `E0`. */
  ghost predicate Kept(base: nat, E0: EdgeMaps, E: EdgeMaps) {
    (forall x :: x < base && x in E0.0 ==> x in E.0 && E.0[x] == E0.0[x]) &&
    (forall x :: x < base && x in E0.1 ==> x in E.1 && E.1[x] == E0.1[x])
  }

  lemma KeptTrans(base: nat, E0: EdgeMaps, E1: EdgeMaps, E2: EdgeMaps)
    requires Kept(base, E0, E1) && Kept(base, E1, E2)
    ensures Kept(base, E0, E2)
  {
  }

  lemma InputStepInv(E: EdgeMaps, bs: seq<Box>, base: nat, k: nat, j: nat, nodes: map<string, NodeId>,
                     consumers: map<string, string>, producers: map<string, string>, inTree: set<NodeId>)
    requires k < |bs| && j < |bs[k].inputs| && Inv(bs, base, E)
    requires AllFound(bs, base, nodes, consumers, producers) && AllLinkable(bs, base, nodes, consumers, producers)
    ensures var r := InputStep(E, base + k, bs[k].inputs[j], nodes, producers, inTree);
            Inv(bs, base, r) && Kept(base, E, r)
  {
    var p := bs[k].inputs[j];
    if BoundVar(p).Some? {
      var v := BoundVar(p).value;
      assert Found(p, nodes, producers, base, base + |bs|);
      var parent := Lookup(nodes, producers, v).value;
      if parent !in inTree {
        LinkKeepsWired(bs, base, E.0, E.1, parent, v, base + k);
      }
    }
  }

  lemma OutputStepInv(E: EdgeMaps, bs: seq<Box>, base: nat, k: nat, j: nat, nodes: map<string, NodeId>,
                      consumers: map<string, string>, producers: map<string, string>, inTree: set<NodeId>)
    requires k < |bs| && j < |bs[k].outputs| && Inv(bs, base, E)
    requires AllFound(bs, base, nodes, consumers, producers) && AllLinkable(bs, base, nodes, consumers, producers)
    ensures var r := OutputStep(E, base + k, bs[k].outputs[j], nodes, consumers, inTree, Corrected);
            Inv(bs, base, r) && Kept(base, E, r)
  {
    var p := bs[k].outputs[j];
    if BoundVar(p).Some? {
      var v := BoundVar(p).value;
      assert Found(p, nodes, consumers, base, base + |bs|);
      var child := Lookup(nodes, consumers, v).value;
      if child !in inTree {
        LinkKeepsWired(bs, base, E.0, E.1, base + k, v, child);
      }
    }
  }

  lemma {:induction false} InputStepsInv(E: EdgeMaps, bs: seq<Box>, base: nat, k: nat, j: nat, nodes: map<string, NodeId>,
                                         consumers: map<string, string>, producers: map<string, string>, inTree: set<NodeId>)
    requires k < |bs| && j <= |bs[k].inputs| && Inv(bs, base, E)
    requires AllFound(bs, base, nodes, consumers, producers) && AllLinkable(bs, base, nodes, consumers, producers)
    ensures var r := InputSteps(E, base + k, bs[k].inputs[..j], nodes, producers, inTree);
            Inv(bs, base, r) && Kept(base, E, r)
  {
    if j > 0 {
      var ports := bs[k].inputs[..j];
      assert ports[..|ports| - 1] == bs[k].inputs[..j - 1];
      InputStepsInv(E, bs, base, k, j - 1, nodes, consumers, producers, inTree);
      var E' := InputSteps(E, base + k, bs[k].inputs[..j - 1], nodes, producers, inTree);
      InputStepInv(E', bs, base, k, j - 1, nodes, consumers, producers, inTree);
      KeptTrans(base, E, E', InputStep(E', base + k, bs[k].inputs[j - 1], nodes, producers, inTree));
    }
  }

  lemma {:induction false} OutputStepsInv(E: EdgeMaps, bs: seq<Box>, base: nat, k: nat, j: nat, nodes: map<string, NodeId>,
                                          consumers: map<string, string>, producers: map<string, string>, inTree: set<NodeId>)
    requires k < |bs| && j <= |bs[k].outputs| && Inv(bs, base, E)
    requires AllFound(bs, base, nodes, consumers, producers) && AllLinkable(bs, base, nodes, consumers, producers)
    ensures var r := OutputSteps(E, base + k, bs[k].outputs[..j], nodes, consumers, inTree, Corrected);
            Inv(bs, base, r) && Kept(base, E, r)
  {
    if j > 0 {
      var ports := bs[k].outputs[..j];
      assert ports[..|ports| - 1] == bs[k].outputs[..j - 1];
      OutputStepsInv(E, bs, base, k, j - 1, nodes, consumers, producers, inTree);
      var E' := OutputSteps(E, base + k, bs[k].outputs[..j - 1], nodes, consumers, inTree, Corrected);
      OutputStepInv(E', bs, base, k, j - 1, nodes, consumers, producers, inTree);
      KeptTrans(base, E, E', OutputStep(E', base + k, bs[k].outputs[j - 1], nodes, consumers, inTree, Corrected));
    }
  }

  /** Linking one node of the queue keeps the edge invariants and the nodes below `base`. */
  lemma NodeLinksInv(E: EdgeMaps, bs: seq<Box>, base: nat, k: nat, nodes: map<string, NodeId>,
                     consumers: map<string, string>, producers: map<string, string>, inTree: set<NodeId>)
    requires k < |bs| && Inv(bs, base, E)
    requires AllFound(bs, base, nodes, consumers, producers) && AllLinkable(bs, base, nodes, consumers, producers)
    ensures var r := NodeLinks(E, base + k, bs[k], nodes, consumers, producers, inTree, Corrected);
            Inv(bs, base, r) && Kept(base, E, r)
  {
    InputStepsInv(E, bs, base, k, |bs[k].inputs|, nodes, consumers, producers, inTree);
    assert bs[k].inputs[..|bs[k].inputs|] == bs[k].inputs;
    var E1 := InputSteps(E, base + k, bs[k].inputs, nodes, producers, inTree);
    OutputStepsInv(E1, bs, base, k, |bs[k].outputs|, nodes, consumers, producers, inTree);
    assert bs[k].outputs[..|bs[k].outputs|] == bs[k].outputs;
    KeptTrans(base, E, E1, OutputSteps(E1, base + k, bs[k].outputs, nodes, consumers, inTree, Corrected));
  }

  /**
   * The whole linking phase keeps the edge invariants (no empty edge name;
   * under unique box names every edge joins a producer to a consumer of its
   * variable; and with one producer per variable every child edge has its
   * parent edge back) and leaves the nodes of earlier pipelines alone.
   */
  lemma {:induction false} AllLinksInv(E: EdgeMaps, bs: seq<Box>, base: nat, i: nat, nodes: map<string, NodeId>,
                                       consumers: map<string, string>, producers: map<string, string>, inTree: set<NodeId>)
    requires i <= |bs| && Inv(bs, base, E)
    requires AllFound(bs, base, nodes, consumers, producers) && AllLinkable(bs, base, nodes, consumers, producers)
    ensures var r := AllLinks(E, bs, base, i, nodes, consumers, producers, inTree, Corrected);
            Inv(bs, base, r) && Kept(base, E, r)
  {
    if i > 0 {
      AllLinksInv(E, bs, base, i - 1, nodes, consumers, producers, inTree);
      var E1 := AllLinks(E, bs, base, i - 1, nodes, consumers, producers, inTree, Corrected);
      AllLinksNext(E, bs, base, i, nodes, consumers, producers, inTree, Corrected);
      NodeLinksInv(E1, bs, base, i - 1, nodes, consumers, producers, inTree + NewIds(base, i - 1));
      KeptTrans(base, E, E1, AllLinks(E, bs, base, i, nodes, consumers, producers, inTree, Corrected));
    }
  }

  // ---------------------------------------------------------------------
  // buildPipelineTree, linking phase: which edges it records
  // ---------------------------------------------------------------------

  /** The node at the other end of `x`'s edge under `w`, None when there is none. */
  function EdgeOf(M: Edges, x: NodeId, w: string): Option<NodeId> {
    if x in M then Get(M[x], w) else None
  }

  /** Every node a lookup in `index` can give has an edge array in `M`. */
  ghost predicate LookupsIn(nodes: map<string, NodeId>, index: map<string, string>, M: Edges) {
    forall v :: Lookup(nodes, index, v).Some? ==> Lookup(nodes, index, v).value in M
  }

  /** Lines 168-177 for one input port, edge by edge. */
  lemma InputStepEdges(E: EdgeMaps, node: NodeId, p: Port, nodes: map<string, NodeId>, producers: map<string, string>,
                       inTree: set<NodeId>, y: NodeId, w: string)
    requires node in E.0 && LookupsIn(nodes, producers, E.1)
    ensures var r := InputStep(E, node, p, nodes, producers, inTree);
            var m := Lookup(nodes, producers, w);
            var linked := BoundVar(p) == Some(w) && m.Some? && m.value !in inTree;
            r.0.Keys == E.0.Keys && r.1.Keys == E.1.Keys &&
            EdgeOf(r.0, y, w) == (if linked && y == node then m else EdgeOf(E.0, y, w)) &&
            EdgeOf(r.1, y, w) == (if linked && y == m.value then Some(node) else EdgeOf(E.1, y, w))
  {
    match BoundVar(p)
    case None =>
    case Some(v) =>
      match Lookup(nodes, producers, v)
      case None =>
      case Some(parent) =>
        if parent !in inTree {
          GetPut(E.0[node], v, parent, w);
          GetPut(E.1[parent], v, node, w);
        }
  }

  /** Lines 180-189 for one output port, edge by edge. */
  lemma OutputStepEdges(E: EdgeMaps, node: NodeId, p: Port, nodes: map<string, NodeId>, consumers: map<string, string>,
                        inTree: set<NodeId>, line189: Line189, y: NodeId, w: string)
    requires node in E.1 && LookupsIn(nodes, consumers, E.0)
    ensures var r := OutputStep(E, node, p, nodes, consumers, inTree, line189);
            var c := Lookup(nodes, consumers, w);
            var linked := BoundVar(p) == Some(w) && c.Some? && c.value !in inTree;
            r.0.Keys == E.0.Keys && r.1.Keys == E.1.Keys &&
            EdgeOf(r.1, y, w) == (if linked && y == node then c else EdgeOf(E.1, y, w)) &&
            EdgeOf(r.0, y, w) == (if linked && line189 == Corrected && y == c.value then Some(node) else EdgeOf(E.0, y, w))
  {
    match BoundVar(p)
    case None =>
    case Some(v) =>
      match Lookup(nodes, consumers, v)
      case None =>
      case Some(child) =>
        if child !in inTree {
          GetPut(E.0[child], v, node, w);
          GetPut(E.1[node], v, child, w);
        }
  }

  /** All input ports of `node`: it gets the producer of each variable it consumes, unless that producer is in the tree. */
  lemma {:induction false} InputStepsEdges(E: EdgeMaps, node: NodeId, ports: seq<Port>, nodes: map<string, NodeId>,
                                           producers: map<string, string>, inTree: set<NodeId>, y: NodeId, w: string)
    requires node in E.0 && LookupsIn(nodes, producers, E.1)
    ensures var r := InputSteps(E, node, ports, nodes, producers, inTree);
            var m := Lookup(nodes, producers, w);
            var linked := Binds(ports, w) && m.Some? && m.value !in inTree;
            r.0.Keys == E.0.Keys && r.1.Keys == E.1.Keys &&
            EdgeOf(r.0, y, w) == (if linked && y == node then m else EdgeOf(E.0, y, w)) &&
            EdgeOf(r.1, y, w) == (if linked && y == m.value then Some(node) else EdgeOf(E.1, y, w))
    decreases |ports|
  {
    if ports != [] {
      var j := |ports| - 1;
      InputStepsEdges(E, node, ports[..j], nodes, producers, inTree, y, w);
      InputStepEdges(InputSteps(E, node, ports[..j], nodes, producers, inTree), node, ports[j], nodes, producers, inTree, y, w);
      BindsSnoc(ports, j, w);
      assert ports[..j + 1] == ports;
    }
  }

  /** All output ports of `node`: it gets the consumer of each variable it produces, unless that consumer is in the tree. */
  lemma {:induction false} OutputStepsEdges(E: EdgeMaps, node: NodeId, ports: seq<Port>, nodes: map<string, NodeId>,
                                            consumers: map<string, string>, inTree: set<NodeId>, line189: Line189,
                                            y: NodeId, w: string)
    requires node in E.1 && LookupsIn(nodes, consumers, E.0)
    ensures var r := OutputSteps(E, node, ports, nodes, consumers, inTree, line189);
            var c := Lookup(nodes, consumers, w);
            var linked := Binds(ports, w) && c.Some? && c.value !in inTree;
            r.0.Keys == E.0.Keys && r.1.Keys == E.1.Keys &&
            EdgeOf(r.1, y, w) == (if linked && y == node then c else EdgeOf(E.1, y, w)) &&
            EdgeOf(r.0, y, w) == (if linked && line189 == Corrected && y == c.value then Some(node) else EdgeOf(E.0, y, w))
    decreases |ports|
  {
    if ports != [] {
      var j := |ports| - 1;
      OutputStepsEdges(E, node, ports[..j], nodes, consumers, inTree, line189, y, w);
      OutputStepEdges(OutputSteps(E, node, ports[..j], nodes, consumers, inTree, line189), node, ports[j], nodes, consumers,
                      inTree, line189, y, w);
      BindsSnoc(ports, j, w);
      assert ports[..j + 1] == ports;
    }
  }

  /** One node of the queue: its input steps' edges, then its output steps' edges on top. */
  lemma NodeLinksEdges(E: EdgeMaps, node: NodeId, b: Box, nodes: map<string, NodeId>, consumers: map<string, string>,
                       producers: map<string, string>, inTree: set<NodeId>, line189: Line189, y: NodeId, w: string)
    requires node in E.0 && node in E.1 && LookupsIn(nodes, producers, E.1) && LookupsIn(nodes, consumers, E.0)
    ensures var r := NodeLinks(E, node, b, nodes, consumers, producers, inTree, line189);
            var m := Lookup(nodes, producers, w);
            var c := Lookup(nodes, consumers, w);
            var fromProducer := Consumes(b, w) && m.Some? && m.value !in inTree;
            var toConsumer := Produces(b, w) && c.Some? && c.value !in inTree;
            r.0.Keys == E.0.Keys && r.1.Keys == E.1.Keys &&
            EdgeOf(r.0, y, w) == (if toConsumer && line189 == Corrected && y == c.value then Some(node)
                                  else if fromProducer && y == node then m else EdgeOf(E.0, y, w)) &&
            EdgeOf(r.1, y, w) == (if toConsumer && y == node then c
                                  else if fromProducer && y == m.value then Some(node) else EdgeOf(E.1, y, w))
  {
    InputStepsEdges(E, node, b.inputs, nodes, producers, inTree, y, w);
    var E1 := InputSteps(E, node, b.inputs, nodes, producers, inTree);
    OutputStepsEdges(E1, node, b.outputs, nodes, consumers, inTree, line189, y, w);
  }

  /** Under unique names, the by-name index maps the name of box `k` to node `base + k`. */
  lemma NodeOfBox(bs: seq<Box>, base: nat, nodes: map<string, NodeId>, k: int)
    requires UniqueNames(bs) && NodesIndexed(bs, base, |bs|, nodes) && 0 <= k < |bs|
    ensures bs[k].name in nodes && nodes[bs[k].name] == base + k
  {
    NamedUnique(bs, k);
  }

  /** With unique names, the producer lookup of line 172 gives the node of the last producer. */
  lemma LookupProducer(bs: seq<Box>, base: nat, nodes: map<string, NodeId>, producers: map<string, string>, w: string)
    requires UniqueNames(bs) && NodesIndexed(bs, base, |bs|, nodes)
    requires w in producers <==> LastProducer(bs, |bs|, w) >= 0
    requires w in producers ==> producers[w] == bs[LastProducer(bs, |bs|, w)].name
    ensures var p := LastProducer(bs, |bs|, w);
            Lookup(nodes, producers, w) == if p >= 0 then Some(base + p) else None
  {
    var p := LastProducer(bs, |bs|, w);
    if p >= 0 {
      NodeOfBox(bs, base, nodes, p);
    }
  }

  /** With unique names, the consumer lookup of line 184 gives the node of the last consumer. */
  lemma LookupConsumer(bs: seq<Box>, base: nat, nodes: map<string, NodeId>, consumers: map<string, string>, w: string)
    requires UniqueNames(bs) && NodesIndexed(bs, base, |bs|, nodes)
    requires w in consumers <==> LastConsumer(bs, |bs|, w) >= 0
    requires w in consumers ==> consumers[w] == bs[LastConsumer(bs, |bs|, w)].name
    ensures var c := LastConsumer(bs, |bs|, w);
            Lookup(nodes, consumers, w) == if c >= 0 then Some(base + c) else None
  {
    var c := LastConsumer(bs, |bs|, w);
    if c >= 0 {
      NodeOfBox(bs, base, nodes, c);
    }
  }

  /** The last producer among the first `i` boxes is at or after any producer among them. */
  lemma {:induction false} ProducerAfter(bs: seq<Box>, i: nat, k: nat, w: string)
    requires k < i <= |bs| && Produces(bs[k], w)
    ensures LastProducer(bs, i, w) >= k
  {
    if !Produces(bs[i - 1], w) {
      ProducerAfter(bs, i - 1, k, w);
    }
  }

  /** The last consumer among the first `i` boxes is at or after any consumer among them. */
  lemma {:induction false} ConsumerAfter(bs: seq<Box>, i: nat, k: nat, w: string)
    requires k < i <= |bs| && Consumes(bs[k], w)
    ensures LastConsumer(bs, i, w) >= k
  {
    if !Consumes(bs[i - 1], w) {
      ConsumerAfter(bs, i - 1, k, w);
    }
  }

  /**
   * The parent of node `base + k` under `w` once the first `i` nodes of the
   * queue are linked. It is the last producer of `w`, recorded by the node's
   * own input step when that producer comes at or after box `k`, and, with
   * line 189 corrected, by the producer's output step when box `k` is the
   * last consumer of `w` and comes at or after the producer.
   */
  function ParentAfter(bs: seq<Box>, base: nat, i: nat, k: nat, w: string, line189: Line189): Option<NodeId>
    requires i <= |bs| && k < |bs|
  {
    var p := LastProducer(bs, |bs|, w);
    var c := LastConsumer(bs, |bs|, w);
    if Consumes(bs[k], w) && 0 <= p && ((k < i && k <= p) || (line189 == Corrected && k == c && p <= k && p < i))
    then Some(base + p) else None
  }

  /**
   * The child of node `base + k` under `w` once the first `i` nodes are
   * linked. A producer of `w` gets the last consumer of `w` on its own
   * output step when that consumer comes at or after it. The last producer
   * of `w` also gets, on their input steps, each consumer at or before it,
   * the later overwriting the earlier.
   */
  function ChildAfter(bs: seq<Box>, base: nat, i: nat, k: nat, w: string): Option<NodeId>
    requires i <= |bs| && k < |bs|
  {
    var p := LastProducer(bs, |bs|, w);
    var c := LastConsumer(bs, |bs|, w);
    if k < i && Produces(bs[k], w) && k <= c then Some(base + c)
    else if k == p then
      var last := LastConsumer(bs, if i <= k then i else k + 1, w);
      if last >= 0 then Some(base + last) else None
    else None
  }

  /** The edges of the pipeline's nodes after the first `i` nodes of the queue are linked. */
  ghost predicate LinkedAfter(bs: seq<Box>, base: nat, i: nat, E: EdgeMaps, line189: Line189)
    requires i <= |bs|
  {
    forall x, w :: base <= x < base + |bs| ==> EdgesAt(bs, base, i, E, line189, x, w)
  }

  /** The child edge of node `x` under `w` is as ChildAfter says, and so is its parent edge as ParentAfter says when that applies. */
  ghost predicate EdgesAt(bs: seq<Box>, base: nat, i: nat, E: EdgeMaps, line189: Line189, x: NodeId, w: string)
    requires i <= |bs| && base <= x < base + |bs|
  {
    EdgeOf(E.1, x, w) == ChildAfter(bs, base, i, x - base, w) &&
    (line189 == AsWritten || SingleProducer(bs) ==> EdgeOf(E.0, x, w) == ParentAfter(bs, base, i, x - base, w, line189))
  }

  /** What AllLinks needs of its arguments: unique names, the three indexes, and nodes below `base` in the tree. */
  ghost predicate LinkContext(bs: seq<Box>, base: nat, nodes: map<string, NodeId>, consumers: map<string, string>,
                              producers: map<string, string>, inTree: set<NodeId>) {
    UniqueNames(bs) && NodesIndexed(bs, base, |bs|, nodes) &&
    ConsumersIndexed(bs, |bs|, consumers) && ProducersIndexed(bs, |bs|, producers) &&
    forall x :: x in inTree ==> x < base
  }

  /** Every node of the pipeline has both edge arrays. */
  ghost predicate Allocated(bs: seq<Box>, base: nat, E: EdgeMaps) {
    forall x :: base <= x < base + |bs| ==> x in E.0 && x in E.1
  }

  /** How linking box `i` changes ChildAfter: its output steps, then the input steps that reach the last producer. */
  lemma ChildAfterStep(bs: seq<Box>, base: nat, i: nat, k: nat, w: string)
    requires i < |bs| && k < |bs|
    ensures var p := LastProducer(bs, |bs|, w);
            var c := LastConsumer(bs, |bs|, w);
            ChildAfter(bs, base, i + 1, k, w) ==
              if Produces(bs[i], w) && i <= c && k == i then Some(base + c)
              else if Consumes(bs[i], w) && i <= p && k == p then Some(base + i)
              else ChildAfter(bs, base, i, k, w)
  {
    var p := LastProducer(bs, |bs|, w);
    if Produces(bs[i], w) {
      ProducerAfter(bs, |bs|, i, w);
    }
    if Consumes(bs[i], w) {
      ConsumerAfter(bs, |bs|, i, w);
    }
    if k == p && i <= k {
      assert LastConsumer(bs, i + 1, w) == if Consumes(bs[i], w) then i else LastConsumer(bs, i, w);
    }
  }

  /** How linking box `i` changes ParentAfter: its input steps, then (corrected) its output steps. */
  lemma ParentAfterStep(bs: seq<Box>, base: nat, i: nat, k: nat, w: string, line189: Line189)
    requires i < |bs| && k < |bs| && (line189 == AsWritten || SingleProducer(bs))
    ensures var p := LastProducer(bs, |bs|, w);
            var c := LastConsumer(bs, |bs|, w);
            ParentAfter(bs, base, i + 1, k, w, line189) ==
              if Produces(bs[i], w) && i <= c && line189 == Corrected && k == c then Some(base + i)
              else if Consumes(bs[i], w) && i <= p && k == i then Some(base + p)
              else ParentAfter(bs, base, i, k, w, line189)
  {
    if Produces(bs[i], w) {
      ProducerAfter(bs, |bs|, i, w);
    }
    if Consumes(bs[i], w) {
      ConsumerAfter(bs, |bs|, i, w);
    }
  }

  /** Box `i` links to its variable's producer or consumer exactly when that box comes at or after box `i`. */
  lemma StepFlags(bs: seq<Box>, base: nat, i: nat, nodes: map<string, NodeId>,
                  consumers: map<string, string>, producers: map<string, string>, inTree: set<NodeId>, w: string)
    requires i < |bs| && forall y :: y in inTree ==> y < base
    requires var p := LastProducer(bs, |bs|, w);
             Lookup(nodes, producers, w) == if p >= 0 then Some(base + p) else None
    requires var c := LastConsumer(bs, |bs|, w);
             Lookup(nodes, consumers, w) == if c >= 0 then Some(base + c) else None
    ensures var m := Lookup(nodes, producers, w);
            (m.Some? && m.value !in inTree + NewIds(base, i)) <==> i <= LastProducer(bs, |bs|, w)
    ensures var c := Lookup(nodes, consumers, w);
            (c.Some? && c.value !in inTree + NewIds(base, i)) <==> i <= LastConsumer(bs, |bs|, w)
  {
  }

  /** Linking box `i` moves the edges of node `x` under `w` from their state after `i` boxes to that after `i + 1`. */
  lemma EdgesAfterStep(E: EdgeMaps, bs: seq<Box>, base: nat, i: nat, nodes: map<string, NodeId>,
                       consumers: map<string, string>, producers: map<string, string>, inTree: set<NodeId>,
                       line189: Line189, x: NodeId, w: string)
    requires i < |bs| && base <= x < base + |bs| && base + i in E.0 && base + i in E.1
    requires LookupsIn(nodes, producers, E.1) && LookupsIn(nodes, consumers, E.0)
    requires forall y :: y in inTree ==> y < base
    requires var p := LastProducer(bs, |bs|, w);
             Lookup(nodes, producers, w) == if p >= 0 then Some(base + p) else None
    requires var c := LastConsumer(bs, |bs|, w);
             Lookup(nodes, consumers, w) == if c >= 0 then Some(base + c) else None
    ensures var r := NodeLinks(E, base + i, bs[i], nodes, consumers, producers, inTree + NewIds(base, i), line189);
            EdgesAt(bs, base, i, E, line189, x, w) ==> EdgesAt(bs, base, i + 1, r, line189, x, w)
  {
    var inTree' := inTree + NewIds(base, i);
    StepFlags(bs, base, i, nodes, consumers, producers, inTree, w);
    NodeLinksEdges(E, base + i, bs[i], nodes, consumers, producers, inTree', line189, x, w);
    var r := NodeLinks(E, base + i, bs[i], nodes, consumers, producers, inTree', line189);
    if EdgesAt(bs, base, i, E, line189, x, w) {
      ChildAfterStep(bs, base, i, x - base, w);
      assert EdgeOf(r.1, x, w) == ChildAfter(bs, base, i + 1, x - base, w);
      if line189 == AsWritten || SingleProducer(bs) {
        ParentAfterStep(bs, base, i, x - base, w, line189);
        assert EdgeOf(r.0, x, w) == ParentAfter(bs, base, i + 1, x - base, w, line189);
      }
    }
  }

  lemma LinkedAfterStep(E: EdgeMaps, bs: seq<Box>, base: nat, i: nat, nodes: map<string, NodeId>,
                        consumers: map<string, string>, producers: map<string, string>, inTree: set<NodeId>, line189: Line189)
    requires i < |bs| && LinkContext(bs, base, nodes, consumers, producers, inTree)
    requires Allocated(bs, base, E) && LinkedAfter(bs, base, i, E, line189)
    ensures var r := NodeLinks(E, base + i, bs[i], nodes, consumers, producers, inTree + NewIds(base, i), line189);
            Allocated(bs, base, r) && LinkedAfter(bs, base, i + 1, r, line189)
  {
    var r := NodeLinks(E, base + i, bs[i], nodes, consumers, producers, inTree + NewIds(base, i), line189);
    forall v | Lookup(nodes, producers, v).Some? ensures Lookup(nodes, producers, v).value in E.1 {
      LookupProducer(bs, base, nodes, producers, v);
    }
    forall v | Lookup(nodes, consumers, v).Some? ensures Lookup(nodes, consumers, v).value in E.0 {
      LookupConsumer(bs, base, nodes, consumers, v);
    }
    NodeLinksEdges(E, base + i, bs[i], nodes, consumers, producers, inTree + NewIds(base, i), line189, base, "");
    var next := i + 1;
    forall x, w | base <= x < base + |bs| ensures EdgesAt(bs, base, next, r, line189, x, w) {
      assert EdgesAt(bs, base, i, E, line189, x, w);
      LookupProducer(bs, base, nodes, producers, w);
      LookupConsumer(bs, base, nodes, consumers, w);
      EdgesAfterStep(E, bs, base, i, nodes, consumers, producers, inTree, line189, x, w);
    }
  }

  /**
   * Lines 165-194 edge by edge, for a pipeline with unique box names whose
   * new nodes start without edges: after the first `i` nodes of the queue
   * every child edge is as ChildAfter says and, when line 189 is read as
   * written or no variable has two producers, every parent edge is as
   * ParentAfter says.
   */
  lemma {:induction false} AllLinksEdges(E: EdgeMaps, bs: seq<Box>, base: nat, i: nat, nodes: map<string, NodeId>,
                                         consumers: map<string, string>, producers: map<string, string>,
                                         inTree: set<NodeId>, line189: Line189)
    requires i <= |bs| && LinkContext(bs, base, nodes, consumers, producers, inTree)
    requires forall x :: base <= x < base + |bs| ==> x in E.0 && x in E.1 && E.0[x] == [] && E.1[x] == []
    ensures var r := AllLinks(E, bs, base, i, nodes, consumers, producers, inTree, line189);
            Allocated(bs, base, r) && LinkedAfter(bs, base, i, r, line189)
  {
    if i == 0 {
      LinkedAtStart(E, bs, base, line189);
    } else {
      AllLinksEdges(E, bs, base, i - 1, nodes, consumers, producers, inTree, line189);
      var prev := AllLinks(E, bs, base, i - 1, nodes, consumers, producers, inTree, line189);
      LinkedAfterStep(prev, bs, base, i - 1, nodes, consumers, producers, inTree, line189);
      var r := NodeLinks(prev, base + (i - 1), bs[i - 1], nodes, consumers, producers, inTree + NewIds(base, i - 1), line189);
      AllLinksNext(E, bs, base, i, nodes, consumers, producers, inTree, line189);
      assert LinkedAfter(bs, base, (i - 1) + 1, r, line189);
    }
  }

  /** Before any node is linked, no new node has an edge, as ParentAfter and ChildAfter say. */
  lemma LinkedAtStart(E: EdgeMaps, bs: seq<Box>, base: nat, line189: Line189)
    requires forall x :: base <= x < base + |bs| ==> x in E.0 && x in E.1 && E.0[x] == [] && E.1[x] == []
    ensures Allocated(bs, base, E) && LinkedAfter(bs, base, 0, E, line189)
  {
    forall x, w | base <= x < base + |bs| ensures EdgesAt(bs, base, 0, E, line189, x, w) {
    }
  }

  /**
   * Line 189 as written, under the reading that a one-argument `addParent`
   * records nothing: a box every one of whose consumed variables has its
   * last producer earlier in the queue gets no parent at all, since only
   * its own input steps could have recorded one and they skip producers
   * already in the tree.
   */
  lemma AsWrittenOrphan(E: EdgeMaps, bs: seq<Box>, base: nat, nodes: map<string, NodeId>, consumers: map<string, string>,
                        producers: map<string, string>, inTree: set<NodeId>, k: nat)
    requires LinkContext(bs, base, nodes, consumers, producers, inTree)
    requires forall x :: base <= x < base + |bs| ==> x in E.0 && x in E.1 && E.0[x] == [] && E.1[x] == []
    requires k < |bs| && forall w :: Consumes(bs[k], w) ==> LastProducer(bs, |bs|, w) < k
    ensures var r := AllLinks(E, bs, base, |bs|, nodes, consumers, producers, inTree, AsWritten);
            base + k in r.0 && r.0[base + k] == []
  {
    AllLinksEdges(E, bs, base, |bs|, nodes, consumers, producers, inTree, AsWritten);
    var r := AllLinks(E, bs, base, |bs|, nodes, consumers, producers, inTree, AsWritten);
    var d := r.0[base + k];
    var w := if d != [] then d[0].0 else "";
    assert EdgesAt(bs, base, |bs|, r, AsWritten, base + k, w);
  }

  /**
   * Either reading of line 189: a consumer of `w` that is not its last
   * consumer and stands after the producer of `w` gets no parent under `w`.
   * Its own input step skips the producer, already in the tree, and the
   * producer's output step links only the last consumer, the one the
   * consumer index keeps.
   */
  lemma EarlierProducerMissesConsumer(E: EdgeMaps, bs: seq<Box>, base: nat, nodes: map<string, NodeId>,
                                      consumers: map<string, string>, producers: map<string, string>,
                                      inTree: set<NodeId>, line189: Line189, k: nat, w: string)
    requires LinkContext(bs, base, nodes, consumers, producers, inTree)
    requires forall x :: base <= x < base + |bs| ==> x in E.0 && x in E.1 && E.0[x] == [] && E.1[x] == []
    requires line189 == AsWritten || SingleProducer(bs)
    requires k < |bs| && Consumes(bs[k], w) && LastProducer(bs, |bs|, w) < k && k != LastConsumer(bs, |bs|, w)
    ensures var r := AllLinks(E, bs, base, |bs|, nodes, consumers, producers, inTree, line189);
            EdgeOf(r.0, base + k, w) == None
  {
    AllLinksEdges(E, bs, base, |bs|, nodes, consumers, producers, inTree, line189);
    var r := AllLinks(E, bs, base, |bs|, nodes, consumers, producers, inTree, line189);
    assert EdgesAt(bs, base, |bs|, r, line189, base + k, w);
  }

  /**
   * Line 189 as written, through the merge, under the same reading of
   * `addParent`: when the output node matched by `mergeTrees` is a box
   * built as written whose consumed variables all have their producers
   * earlier in its queue, the node has no parent and the merge fails at
   * lines 88-92.
   */
  lemma AsWrittenMergeFails(E: EdgeMaps, bs: seq<Box>, base: nat, nodes: map<string, NodeId>,
                            consumers: map<string, string>, producers: map<string, string>, inTree: set<NodeId>, k: nat,
                            B: map<NodeId, Option<Box>>, next: nat, first: MergeTree, second: MergeTree, i: nat, v: string)
    requires LinkContext(bs, base, nodes, consumers, producers, inTree)
    requires forall x :: base <= x < base + |bs| ==> x in E.0 && x in E.1 && E.0[x] == [] && E.1[x] == []
    requires k < |bs| && forall w :: Consumes(bs[k], w) ==> LastProducer(bs, |bs|, w) < k
    requires OutIndex(B, first.outputs, |first.outputs|).Some?
    requires Get(OutIndex(B, first.outputs, |first.outputs|).value, v) == Some(base + k)
    requires i < |second.inputs| && FirstOutputKey(B, second.inputs[i]) == Some(v)
    requires forall j :: 0 <= j < i ==>
               FirstOutputKey(B, second.inputs[j]).Some? &&
               Get(OutIndex(B, first.outputs, |first.outputs|).value, FirstOutputKey(B, second.inputs[j]).value).None?
    ensures var r := AllLinks(E, bs, base, |bs|, nodes, consumers, producers, inTree, AsWritten);
            MergedTree(first, second, MergePlan(B, r, next, first, second)).Failure?
  {
    AsWrittenOrphan(E, bs, base, nodes, consumers, producers, inTree, k);
    OrphanMatchFails(B, AllLinks(E, bs, base, |bs|, nodes, consumers, producers, inTree, AsWritten), next, first, second,
                     i, v, base + k);
  }

  /**
   * Line 189 corrected: the last consumer of a produced variable has the
   * producer as its parent under that variable, wherever the two stand in
   * the queue.
   */
  lemma CorrectedLastConsumerLinked(E: EdgeMaps, bs: seq<Box>, base: nat, nodes: map<string, NodeId>,
                                    consumers: map<string, string>, producers: map<string, string>,
                                    inTree: set<NodeId>, w: string)
    requires LinkContext(bs, base, nodes, consumers, producers, inTree) && SingleProducer(bs)
    requires forall x :: base <= x < base + |bs| ==> x in E.0 && x in E.1 && E.0[x] == [] && E.1[x] == []
    requires LastProducer(bs, |bs|, w) >= 0 && LastConsumer(bs, |bs|, w) >= 0
    ensures var r := AllLinks(E, bs, base, |bs|, nodes, consumers, producers, inTree, Corrected);
            EdgeOf(r.0, base + LastConsumer(bs, |bs|, w), w) == Some(base + LastProducer(bs, |bs|, w)) &&
            EdgeOf(r.1, base + LastProducer(bs, |bs|, w), w) == Some(base + LastConsumer(bs, |bs|, w))
  {
    AllLinksEdges(E, bs, base, |bs|, nodes, consumers, producers, inTree, Corrected);
    LastPairAfter(bs, base, w, LastProducer(bs, |bs|, w), LastConsumer(bs, |bs|, w));
    PairEdges(bs, base, AllLinks(E, bs, base, |bs|, nodes, consumers, producers, inTree, Corrected), w,
              LastProducer(bs, |bs|, w), LastConsumer(bs, |bs|, w));
  }

  /** Reading the edges of the last producer and the last consumer of `w` off the characterisation. */
  lemma PairEdges(bs: seq<Box>, base: nat, r: EdgeMaps, w: string, p: int, c: int)
    requires 0 <= p < |bs| && 0 <= c < |bs| && SingleProducer(bs) && LinkedAfter(bs, base, |bs|, r, Corrected)
    requires ParentAfter(bs, base, |bs|, c, w, Corrected) == Some(base + p)
    requires ChildAfter(bs, base, |bs|, p, w) == Some(base + c)
    ensures EdgeOf(r.0, base + c, w) == Some(base + p) && EdgeOf(r.1, base + p, w) == Some(base + c)
  {
    assert EdgesAt(bs, base, |bs|, r, Corrected, base + c, w);
    assert EdgesAt(bs, base, |bs|, r, Corrected, base + p, w);
  }

  /** Once every node is linked, ParentAfter and ChildAfter join the last producer and the last consumer of `w`. */
  lemma LastPairAfter(bs: seq<Box>, base: nat, w: string, p: int, c: int)
    requires p == LastProducer(bs, |bs|, w) && c == LastConsumer(bs, |bs|, w) && p >= 0 && c >= 0
    ensures ParentAfter(bs, base, |bs|, c, w, Corrected) == Some(base + p)
    ensures ChildAfter(bs, base, |bs|, p, w) == Some(base + c)
  {
    if c < p {
      ConsumerPrefix(bs, p + 1, w);
    }
  }

  /** The last consumer among a prefix that reaches past the last consumer overall is that consumer. */
  lemma {:induction false} ConsumerPrefix(bs: seq<Box>, i: nat, w: string)
    requires LastConsumer(bs, |bs|, w) < i <= |bs|
    ensures LastConsumer(bs, i, w) == LastConsumer(bs, |bs|, w)
    decreases |bs| - i
  {
    if i < |bs| {
      ConsumerPrefix(bs, i + 1, w);
    }
  }

  // ---------------------------------------------------------------------
  // buildPipelineTree: the methods
  // ---------------------------------------------------------------------

  /** `E` with an empty edge array for each of the ids `base`, ..., `base + count - 1`. */
  function WithEmpty(E: Edges, base: nat, count: nat): Edges {
    if count == 0 then E else WithEmpty(E, base, count - 1)[base + (count - 1) := []]
  }

  /** `M` with the node `base + k` holding box `bs[k]`, for every `k < count`. */
  function WithBoxes(M: map<NodeId, Option<Box>>, base: nat, bs: seq<Box>, count: nat): map<NodeId, Option<Box>>
    requires count <= |bs|
  {
    if count == 0 then M else WithBoxes(M, base, bs, count - 1)[base + (count - 1) := Some(bs[count - 1])]
  }

  lemma {:induction false} WithEmptyFacts(E: Edges, base: nat, count: nat)
    ensures var r := WithEmpty(E, base, count);
            (forall x :: x in r <==> x in E || base <= x < base + count) &&
            (forall x :: base <= x < base + count ==> r[x] == []) &&
            (forall x :: x in E && !(base <= x < base + count) ==> r[x] == E[x])
  {
    if count > 0 {
      WithEmptyFacts(E, base, count - 1);
    }
  }

  lemma {:induction false} WithBoxesFacts(M: map<NodeId, Option<Box>>, base: nat, bs: seq<Box>, count: nat)
    requires count <= |bs|
    ensures var r := WithBoxes(M, base, bs, count);
            (forall x :: x in r <==> x in M || base <= x < base + count) &&
            (forall x :: base <= x < base + count ==> r[x] == Some(bs[x - base])) &&
            (forall x :: x in M && !(base <= x < base + count) ==> r[x] == M[x])
  {
    if count > 0 {
      WithBoxesFacts(M, base, bs, count - 1);
    }
  }

  lemma WithEmptySnoc(E: Edges, base: nat, i: nat)
    ensures WithEmpty(E, base, i + 1) == WithEmpty(E, base, i)[base + i := []]
  {
  }

  lemma WithBoxesSnoc(M: map<NodeId, Option<Box>>, base: nat, bs: seq<Box>, i: nat)
    requires i < |bs|
    ensures WithBoxes(M, base, bs, i + 1) == WithBoxes(M, base, bs, i)[base + i := Some(bs[i])]
  {
  }

  /**
   * The nodes created for a pipeline have no edges yet, so they satisfy the
   * edge invariants; the nodes below `base` are as they were.
   */
  lemma FreshNodes(bs: seq<Box>, base: nat, P0: Edges, C0: Edges)
    requires forall x :: x in P0 ==> x < base
    requires forall x :: x in C0 ==> x < base
    ensures var E := (WithEmpty(P0, base, |bs|), WithEmpty(C0, base, |bs|));
            Inv(bs, base, E) && Kept(base, (P0, C0), E)
  {
    WithEmptyFacts(P0, base, |bs|);
    WithEmptyFacts(C0, base, |bs|);
  }

  /** Node `base + k` holds box `bs[k]` once the nodes for `bs` are created. */
  lemma BoxesPlaced(B0: map<NodeId, Option<Box>>, base: nat, bs: seq<Box>, B: map<NodeId, Option<Box>>)
    requires B == WithBoxes(B0, base, bs, |bs|)
    ensures forall n: NodeId :: base <= n < base + |bs| ==> n in B && B[n] == Some(bs[n - base])
  {
    WithBoxesFacts(B0, base, bs, |bs|);
  }

  lemma NodesForSnoc(sub: seq<Box>, bs: seq<Box>, base: nat, i: nat)
    requires i < |sub| && forall b :: b in sub ==> b in bs
    ensures NodesFor(sub[..i + 1], bs, base) == NodesFor(sub[..i], bs, base) + [base + LastNamed(bs, |bs|, sub[i].name)]
  {
    assert sub[..i + 1][..i] == sub[..i];
  }

  /** Lines 138-160: the box's node under its name, and its bound ports in the variable index. */
  method IndexBox(bs: seq<Box>, base: nat, i: nat, nodes: map<string, NodeId>,
                  consumers: map<string, string>, producers: map<string, string>)
    returns (nodes': map<string, NodeId>, consumers': map<string, string>, producers': map<string, string>)
    requires i < |bs| && NodesIndexed(bs, base, i, nodes)
    requires ConsumersIndexed(bs, i, consumers) && ProducersIndexed(bs, i, producers)
    ensures NodesIndexed(bs, base, i + 1, nodes')
    ensures ConsumersIndexed(bs, i + 1, consumers') && ProducersIndexed(bs, i + 1, producers')
    ensures nodes' == nodes[bs[i].name := base + i]
    ensures consumers' == PortIndex(consumers, bs[i].inputs, bs[i].name)
    ensures producers' == PortIndex(producers, bs[i].outputs, bs[i].name)
  {
    NodesIndexedStep(bs, base, i, nodes);
    nodes' := nodes[bs[i].name := base + i];
    consumers' := IndexPorts(consumers, bs[i].inputs, bs[i].name);
    PortsIndexedStep(bs, i, consumers, consumers', true);
    producers' := IndexPorts(producers, bs[i].outputs, bs[i].name);
    PortsIndexedStep(bs, i, producers, producers', false);
  }

  /**
   * Lines 132-161: one node per box in the queue, the by-name index (last
   * box of a name wins) and the variable index, whose slot 0 holds the last
   * consumer and slot 1 the last producer of each non-empty variable.
   */
  method CreateNodes(f: Forest, bs: seq<Box>)
    returns (queue: seq<NodeId>, nodes: map<string, NodeId>, consumers: map<string, string>, producers: map<string, string>)
    requires f.Valid()
    modifies f
    ensures f.Valid() && f.next == old(f.next) + |bs|
    ensures f.boxOf == WithBoxes(old(f.boxOf), old(f.next), bs, |bs|)
    ensures f.parents == WithEmpty(old(f.parents), old(f.next), |bs|)
    ensures f.children == WithEmpty(old(f.children), old(f.next), |bs|)
    ensures f.inTree == old(f.inTree) && f.tables == old(f.tables)
    ensures |queue| == |bs| && forall k :: 0 <= k < |bs| ==> queue[k] == old(f.next) + k
    ensures NodesIndexed(bs, old(f.next), |bs|, nodes)
    ensures ConsumersIndexed(bs, |bs|, consumers) && ProducersIndexed(bs, |bs|, producers)
    ensures nodes == NodeIndex(bs, old(f.next), |bs|)
    ensures consumers == ConsumerIndex(bs, |bs|) && producers == ProducerIndex(bs, |bs|)
  {
    var base := f.next;
    queue, nodes, consumers, producers := [], map[], map[], map[];
    for i := 0 to |bs|
      invariant f.Valid() && f.next == base + i
      invariant f.boxOf == WithBoxes(old(f.boxOf), base, bs, i)
      invariant f.parents == WithEmpty(old(f.parents), base, i)
      invariant f.children == WithEmpty(old(f.children), base, i)
      invariant f.inTree == old(f.inTree) && f.tables == old(f.tables)
      invariant |queue| == i && forall k :: 0 <= k < i ==> queue[k] == base + k
      invariant NodesIndexed(bs, base, i, nodes)
      invariant ConsumersIndexed(bs, i, consumers) && ProducersIndexed(bs, i, producers)
      invariant nodes == NodeIndex(bs, base, i)
      invariant consumers == ConsumerIndex(bs, i) && producers == ProducerIndex(bs, i)
    {
      var node := NewBoxNode(f, bs, base, i, old(f.boxOf), old(f.parents), old(f.children));
      queue := queue + [node];
      nodes, consumers, producers := IndexBox(bs, base, i, nodes, consumers, producers);
    }
  }

  /** Line 160 for box `i`: its node is the next id, holding the box, with no edges. */
  method NewBoxNode(f: Forest, bs: seq<Box>, base: nat, i: nat, ghost B: map<NodeId, Option<Box>>, ghost P: Edges, ghost C: Edges)
    returns (node: NodeId)
    requires f.Valid() && i < |bs| && f.next == base + i
    requires f.boxOf == WithBoxes(B, base, bs, i) && f.parents == WithEmpty(P, base, i) && f.children == WithEmpty(C, base, i)
    modifies f
    ensures f.Valid() && f.next == base + i + 1 && node == base + i
    ensures f.boxOf == WithBoxes(B, base, bs, i + 1)
    ensures f.parents == WithEmpty(P, base, i + 1) && f.children == WithEmpty(C, base, i + 1)
    ensures f.inTree == old(f.inTree) && f.tables == old(f.tables)
  {
    WithBoxesSnoc(B, base, bs, i);
    WithEmptySnoc(P, base, i);
    WithEmptySnoc(C, base, i);
    node := f.NewNode(Some(bs[i]));
  }

  /** Lines 167-178 for one input port of `node`. */
  method LinkInputPort(f: Forest, base: nat, node: NodeId, p: Port, nodes: map<string, NodeId>, producers: map<string, string>)
    requires f.Valid() && node < f.next && Found(p, nodes, producers, base, f.next)
    modifies f
    ensures f.Valid() && f.next == old(f.next) && f.boxOf == old(f.boxOf) && f.inTree == old(f.inTree) && f.tables == old(f.tables)
    ensures (f.parents, f.children) == InputStep((old(f.parents), old(f.children)), node, p, nodes, producers, f.inTree)
  {
    var varName := p.meta.variable;
    if IsEmpty(varName) {
      return;
    }
    var v := varName.value;
    var child := nodes[producers[v]];
    if child in f.inTree {
      return;
    }
    f.AddParent(node, v, child);
    f.AddChild(child, v, node);
  }

  /** Lines 179-190 for one output port of `node`, line 189 passing the node as the parent. */
  method LinkOutputPort(f: Forest, base: nat, node: NodeId, p: Port, nodes: map<string, NodeId>, consumers: map<string, string>)
    requires f.Valid() && node < f.next && Found(p, nodes, consumers, base, f.next)
    modifies f
    ensures f.Valid() && f.next == old(f.next) && f.boxOf == old(f.boxOf) && f.inTree == old(f.inTree) && f.tables == old(f.tables)
    ensures (f.parents, f.children) == OutputStep((old(f.parents), old(f.children)), node, p, nodes, consumers, f.inTree, Corrected)
  {
    var varName := p.meta.variable;
    if IsEmpty(varName) {
      return;
    }
    var v := varName.value;
    var child := nodes[consumers[v]];
    if child in f.inTree {
      return;
    }
    f.AddChild(node, v, child);
    f.AddParent(child, v, node);
  }

  /** Lines 166-190: the input ports of the node's box, then its output ports. */
  method LinkNode(f: Forest, base: nat, node: NodeId, b: Box, nodes: map<string, NodeId>,
                  consumers: map<string, string>, producers: map<string, string>)
    requires f.Valid() && node < f.next
    requires forall j :: 0 <= j < |b.inputs| ==> Found(b.inputs[j], nodes, producers, base, f.next)
    requires forall j :: 0 <= j < |b.outputs| ==> Found(b.outputs[j], nodes, consumers, base, f.next)
    modifies f
    ensures f.Valid() && f.next == old(f.next) && f.boxOf == old(f.boxOf) && f.inTree == old(f.inTree) && f.tables == old(f.tables)
    ensures (f.parents, f.children) == NodeLinks((old(f.parents), old(f.children)), node, b, nodes, consumers, producers, f.inTree, Corrected)
  {
    ghost var E0 := (f.parents, f.children);
    for j := 0 to |b.inputs|
      invariant f.Valid() && f.next == old(f.next) && f.boxOf == old(f.boxOf) && f.inTree == old(f.inTree) && f.tables == old(f.tables)
      invariant (f.parents, f.children) == InputSteps(E0, node, b.inputs[..j], nodes, producers, f.inTree)
    {
      assert b.inputs[..j + 1][..j] == b.inputs[..j];
      LinkInputPort(f, base, node, b.inputs[j], nodes, producers);
    }
    assert b.inputs[..|b.inputs|] == b.inputs;
    ghost var E1 := (f.parents, f.children);
    for j := 0 to |b.outputs|
      invariant f.Valid() && f.next == old(f.next) && f.boxOf == old(f.boxOf) && f.inTree == old(f.inTree) && f.tables == old(f.tables)
      invariant (f.parents, f.children) == OutputSteps(E1, node, b.outputs[..j], nodes, consumers, f.inTree, Corrected)
    {
      assert b.outputs[..j + 1][..j] == b.outputs[..j];
      LinkOutputPort(f, base, node, b.outputs[j], nodes, consumers);
    }
    assert b.outputs[..|b.outputs|] == b.outputs;
  }

  /** Lines 165-194: every node of the queue linked in turn and then marked in the tree. */
  method LinkAll(f: Forest, bs: seq<Box>, base: nat, queue: seq<NodeId>, nodes: map<string, NodeId>,
                 consumers: map<string, string>, producers: map<string, string>)
    requires f.Valid() && f.next == base + |bs| && |queue| == |bs|
    requires forall k :: 0 <= k < |bs| ==> queue[k] == base + k
    requires forall n: NodeId :: base <= n < base + |bs| ==> n in f.boxOf && f.boxOf[n] == Some(bs[n - base])
    requires AllFound(bs, base, nodes, consumers, producers)
    modifies f
    ensures f.Valid() && f.next == old(f.next) && f.boxOf == old(f.boxOf) && f.tables == old(f.tables)
    ensures f.inTree == old(f.inTree) + NewIds(base, |bs|)
    ensures (f.parents, f.children) ==
            AllLinks((old(f.parents), old(f.children)), bs, base, |bs|, nodes, consumers, producers, old(f.inTree), Corrected)
  {
    ghost var E0 := (f.parents, f.children);
    for i := 0 to |queue|
      invariant f.Valid() && f.next == base + |bs| && f.boxOf == old(f.boxOf) && f.tables == old(f.tables)
      invariant f.inTree == old(f.inTree) + NewIds(base, i)
      invariant (f.parents, f.children) == AllLinks(E0, bs, base, i, nodes, consumers, producers, old(f.inTree), Corrected)
    {
      var node := queue[i];
      var box := f.boxOf[node].value;
      assert node == base + i && box == bs[i];
      AllLinksNext(E0, bs, base, i + 1, nodes, consumers, producers, old(f.inTree), Corrected);
      LinkNode(f, base, node, box, nodes, consumers, producers);
      f.SetInTree(node);
    }
  }

  /** One of the loops of lines 197-209: the node of each box of `sub`, in order. */
  method NodesOf(sub: seq<Box>, bs: seq<Box>, base: nat, nodes: map<string, NodeId>) returns (r: seq<NodeId>)
    requires NodesIndexed(bs, base, |bs|, nodes) && forall b :: b in sub ==> b in bs
    ensures r == NodesFor(sub, bs, base)
  {
    r := [];
    for i := 0 to |sub|
      invariant r == NodesFor(sub[..i], bs, base)
    {
      NodesForSnoc(sub, bs, base, i);
      NodeOf(bs, base, nodes, sub[i]);
      r := r + [nodes[sub[i].name]];
    }
    assert sub[..|sub|] == sub;
  }

  /** Lines 196-209: the nodes of the data-in, data-out and other boxes, in pipeline order. */
  method CollectNodes(bs: seq<Box>, base: nat, nodes: map<string, NodeId>) returns (tree: MergeTree)
    requires NodesIndexed(bs, base, |bs|, nodes)
    ensures tree == Classify(bs, base)
  {
    var ins := NodesOf(BoxesWithRole(bs, DataInRole), bs, base, nodes);
    var outs := NodesOf(BoxesWithRole(bs, DataOutRole), bs, base, nodes);
    var others := NodesOf(BoxesWithRole(bs, OtherRole), bs, base, nodes);
    tree := MergeTree(ins, outs, others);
  }

  /**
   * The forest after `buildPipelineTree` for boxes `bs`: node `s.next + k`
   * holds box `k`, the new nodes are linked by AllLinks (line 189
   * corrected) and marked in the tree.
   */
  function BuiltState(s: ForestState, bs: seq<Box>): ForestState {
    var base := s.next;
    var E := AllLinks((WithEmpty(s.parents, base, |bs|), WithEmpty(s.children, base, |bs|)), bs, base, |bs|,
                      NodeIndex(bs, base, |bs|), ConsumerIndex(bs, |bs|), ProducerIndex(bs, |bs|), s.inTree, Corrected);
    ForestState(base + |bs|, WithBoxes(s.boxOf, base, bs, |bs|), E.0, E.1, s.inTree + NewIds(base, |bs|), s.tables)
  }

  /**
   * `buildPipelineTree`: one fresh node per box (node `base + k` for box
   * `k`), edges between producers and consumers of each bound variable,
   * every new node marked in the tree, the nodes of earlier pipelines left
   * alone, and the nodes sorted into the input, output and other sets by
   * the role of their box.
   */
  method BuildPipelineTree(f: Forest, p: Pipeline) returns (tree: MergeTree)
    requires f.Valid() && Closed(p.boxes)
    modifies f
    ensures f.Valid() && f.State() == BuiltState(old(f.State()), p.boxes)
    ensures Kept(old(f.next), (old(f.parents), old(f.children)), (f.parents, f.children))
    ensures tree == Classify(p.boxes, old(f.next))
    ensures Wired(p.boxes, old(f.next), f.parents, f.children)
    ensures UniqueNames(p.boxes) ==> LinkedAfter(p.boxes, old(f.next), |p.boxes|, (f.parents, f.children), Corrected)
  {
    var bs := p.boxes;
    var base := f.next;
    var queue, nodes, consumers, producers := CreateNodes(f, bs);
    BoxesPlaced(old(f.boxOf), base, bs, f.boxOf);
    LinkedPipeline(old(f.parents), old(f.children), bs, base, nodes, consumers, producers, f.inTree);
    LinkAll(f, bs, base, queue, nodes, consumers, producers);
    tree := CollectNodes(bs, base, nodes);
  }

  /**
   * What linking a closed pipeline's fresh nodes gives: every lookup finds
   * a node, the older nodes keep their edges, the new edges are wired and,
   * under unique names, are the ones LinkedAfter describes.
   */
  lemma LinkedPipeline(P0: Edges, C0: Edges, bs: seq<Box>, base: nat, nodes: map<string, NodeId>,
                       consumers: map<string, string>, producers: map<string, string>, inTree: set<NodeId>)
    requires (forall x :: x in P0 ==> x < base) && (forall x :: x in C0 ==> x < base) && (forall x :: x in inTree ==> x < base)
    requires Closed(bs) && NodesIndexed(bs, base, |bs|, nodes)
    requires ConsumersIndexed(bs, |bs|, consumers) && ProducersIndexed(bs, |bs|, producers)
    ensures AllFound(bs, base, nodes, consumers, producers)
    ensures var r := AllLinks((WithEmpty(P0, base, |bs|), WithEmpty(C0, base, |bs|)), bs, base, |bs|,
                              nodes, consumers, producers, inTree, Corrected);
            Kept(base, (P0, C0), r) && Wired(bs, base, r.0, r.1) &&
            (UniqueNames(bs) ==> LinkedAfter(bs, base, |bs|, r, Corrected))
  {
    var E1 := (WithEmpty(P0, base, |bs|), WithEmpty(C0, base, |bs|));
    FreshNodes(bs, base, P0, C0);
    ClosedFound(bs, base, nodes, consumers, producers);
    AllLinksInv(E1, bs, base, |bs|, nodes, consumers, producers, inTree);
    KeptTrans(base, (P0, C0), E1, AllLinks(E1, bs, base, |bs|, nodes, consumers, producers, inTree, Corrected));
    if UniqueNames(bs) {
      WithEmptyFacts(P0, base, |bs|);
      WithEmptyFacts(C0, base, |bs|);
      AllLinksEdges(E1, bs, base, |bs|, nodes, consumers, producers, inTree, Corrected);
    }
  }

  // ---------------------------------------------------------------------
  // buildPipelineTree: the three node sets
  // ---------------------------------------------------------------------

  /** Every node looked up for boxes of the pipeline is one of its nodes. */
  lemma NodesForInRange(sub: seq<Box>, bs: seq<Box>, base: nat)
    requires forall b :: b in sub ==> b in bs
    ensures forall n :: n in NodesFor(sub, bs, base) ==> base <= n < base + |bs|
  {
    var r := NodesFor(sub, bs, base);
    forall n | n in r ensures base <= n < base + |bs| {
      var i :| 0 <= i < |r| && r[i] == n;
      NamedFound(bs, sub[i]);
    }
  }

  /** Lines 196-209: the tree holds only nodes created for the pipeline. */
  lemma ClassifyInRange(bs: seq<Box>, base: nat)
    ensures forall n :: n in AllNodes(Classify(bs, base)) ==> base <= n < base + |bs|
  {
    NodesForInRange(BoxesWithRole(bs, DataInRole), bs, base);
    NodesForInRange(BoxesWithRole(bs, DataOutRole), bs, base);
    NodesForInRange(BoxesWithRole(bs, OtherRole), bs, base);
  }

  /** With unique box names, node `base + k` is among the nodes of a role iff box `k` has that role. */
  lemma NodesForRole(bs: seq<Box>, base: nat, role: BoxRole, k: nat)
    requires UniqueNames(bs) && k < |bs|
    ensures base + k in NodesFor(BoxesWithRole(bs, role), bs, base) <==> bs[k].role == role
  {
    var sub := BoxesWithRole(bs, role);
    var r := NodesFor(sub, bs, base);
    if bs[k].role == role {
      var i :| 0 <= i < |sub| && sub[i] == bs[k];
      NamedUnique(bs, k);
      assert r[i] == base + k;
      assert base + k in r;
    }
    if base + k in r {
      var i :| 0 <= i < |r| && r[i] == base + k;
      assert sub[i] in sub;
      var x :| 0 <= x < |bs| && bs[x] == sub[i];
      NamedUnique(bs, x);
      assert x == k;
      assert bs[k] in sub;
      assert bs[k].role == role;
    }
  }

  /** Every box has exactly one of the three roles. */
  lemma {:induction false} RolesCount(bs: seq<Box>)
    ensures |BoxesWithRole(bs, DataInRole)| + |BoxesWithRole(bs, DataOutRole)| + |BoxesWithRole(bs, OtherRole)| == |bs|
  {
    if bs != [] {
      RolesCount(bs[1..]);
    }
  }

  /**
   * Lines 135-138 and 196-209: with unique box names the three sets
   * partition the pipeline's nodes. There are as many entries as boxes, and
   * the node of box `k` is an input node iff the box is a data-in box, an
   * output node iff it is a data-out box, and an other node otherwise.
   */
  lemma ClassifyPartition(bs: seq<Box>, base: nat)
    requires UniqueNames(bs)
    ensures var t := Classify(bs, base);
            |AllNodes(t)| == |bs| &&
            forall k :: 0 <= k < |bs| ==>
              (base + k in t.inputs <==> bs[k].role == DataInRole) &&
              (base + k in t.outputs <==> bs[k].role == DataOutRole) &&
              (base + k in t.others <==> bs[k].role == OtherRole)
  {
    RolesCount(bs);
    forall k | 0 <= k < |bs|
      ensures base + k in NodesFor(BoxesWithRole(bs, DataInRole), bs, base) <==> bs[k].role == DataInRole
      ensures base + k in NodesFor(BoxesWithRole(bs, DataOutRole), bs, base) <==> bs[k].role == DataOutRole
      ensures base + k in NodesFor(BoxesWithRole(bs, OtherRole), bs, base) <==> bs[k].role == OtherRole
    {
      NodesForRole(bs, base, DataInRole, k);
      NodesForRole(bs, base, DataOutRole, k);
      NodesForRole(bs, base, OtherRole, k);
    }
  }

  // ---------------------------------------------------------------------
  // mergeTrees: the specification
  // ---------------------------------------------------------------------

  /** Why merging fails: a method called on PHP's false, or a pipeline id with no pipeline. */
  datatype MergeError = CallOnNonObject | NotFoundException(id: string)

  /** A variable name used as an array key: PHP turns null into "". */
  function KeyOf(v: Option<string>): string {
    if v.None? then "" else v.value
  }

  /** Line 77: the variable of the first input port of the node's box, None where PHP fails (no box, no port). */
  function FirstInputKey(B: map<NodeId, Option<Box>>, n: NodeId): Option<string> {
    if n in B && B[n].Some? && |B[n].value.inputs| > 0 then Some(KeyOf(B[n].value.inputs[0].meta.variable)) else None
  }

  /** Line 85: the variable of the first output port of the node's box, None where PHP fails. */
  function FirstOutputKey(B: map<NodeId, Option<Box>>, n: NodeId): Option<string> {
    if n in B && B[n].Some? && |B[n].value.outputs| > 0 then Some(KeyOf(B[n].value.outputs[0].meta.variable)) else None
  }

  /** Lines 75-79 over the first `i` output nodes: each node stored under its key, later nodes overwriting earlier ones. */
  function OutIndex(B: map<NodeId, Option<Box>>, outs: seq<NodeId>, i: nat): Option<Dict<string, NodeId>>
    requires i <= |outs|
  {
    if i == 0 then Some([])
    else match OutIndex(B, outs, i - 1)
      case None => None
      case Some(d) =>
        match FirstInputKey(B, outs[i - 1])
        case None => None
        case Some(k) => Some(Put(d, k, outs[i - 1]))
  }

  /** The last of the first `i` output nodes whose key is `k`, or -1. */
  function LastKeyed(B: map<NodeId, Option<Box>>, outs: seq<NodeId>, i: nat, k: string): (j: int)
    requires i <= |outs|
    ensures -1 <= j < i
    ensures j >= 0 ==> FirstInputKey(B, outs[j]) == Some(k)
  {
    if i == 0 then -1 else if FirstInputKey(B, outs[i - 1]) == Some(k) then i - 1 else LastKeyed(B, outs, i - 1, k)
  }

  /**
   * The index exists iff every output node has a key; it then holds under
   * each key the last output node with that key and nothing else, with
   * unique keys and at most one entry per output node.
   */
  lemma {:induction false} OutIndexLastWins(B: map<NodeId, Option<Box>>, outs: seq<NodeId>, i: nat, k: string)
    requires i <= |outs|
    ensures OutIndex(B, outs, i).Some? <==> forall j :: 0 <= j < i ==> FirstInputKey(B, outs[j]).Some?
    ensures OutIndex(B, outs, i).Some? ==>
            var d := OutIndex(B, outs, i).value;
            var j := LastKeyed(B, outs, i, k);
            Get(d, k) == (if j >= 0 then Some(outs[j]) else None) && UniqueKeys(d) && |d| <= i
  {
    if i > 0 {
      OutIndexLastWins(B, outs, i - 1, k);
      var prev := OutIndex(B, outs, i - 1);
      if prev.Some? && FirstInputKey(B, outs[i - 1]).Some? {
        var key := FirstInputKey(B, outs[i - 1]).value;
        GetPut(prev.value, key, outs[i - 1], k);
        PutUnique(prev.value, key, outs[i - 1]);
        PutLength(prev.value, key, outs[i - 1]);
      }
    }
  }

  /** Every entry of the index is one of the output nodes. */
  lemma {:induction false} OutIndexFrom(B: map<NodeId, Option<Box>>, outs: seq<NodeId>, i: nat, e: (string, NodeId))
    requires i <= |outs| && OutIndex(B, outs, i).Some? && e in OutIndex(B, outs, i).value
    ensures e.1 in outs
  {
    var prev := OutIndex(B, outs, i - 1);
    PutElems(prev.value, FirstInputKey(B, outs[i - 1]).value, outs[i - 1]);
    if e != (FirstInputKey(B, outs[i - 1]).value, outs[i - 1]) {
      OutIndexFrom(B, outs, i - 1, e);
    }
  }

  /** The merge state after some of the second tree's input nodes: the forest, the index and the lists built. */
  datatype Splicing = Splicing(E: EdgeMaps, boxes: map<NodeId, Option<Box>>, next: nat,
                               outVars: Dict<string, NodeId>, inputs: seq<NodeId>, joins: seq<NodeId>,
                               failed: bool)

  /**
   * Lines 93-101: cut `outNode` from `prev` and `inNode` from `nxt`, and put
   * the new node `j` between them, each step applied to the edges as the
   * previous one left them.
   */
  function JoinEdges(E: EdgeMaps, v: string, outNode: NodeId, inNode: NodeId, prev: NodeId, nxt: NodeId, j: NodeId): EdgeMaps
    requires prev in E.1 && nxt in E.0
  {
    var C1 := E.1[prev := RemoveValue(E.1[prev], outNode)];
    var P1 := E.0[nxt := RemoveValue(E.0[nxt], inNode)];
    var P2 := P1[j := []];
    var C2 := C1[j := []];
    var C3 := C2[prev := Put(C2[prev], v, j)];
    var P3 := P2[j := Put(P2[j], v, prev)];
    var P4 := P3[nxt := Put(P3[nxt], v, j)];
    (P4, C3[j := Put(C3[j], v, nxt)])
  }

  /** Lines 84-109 for one input node of the second tree. */
  function SpliceStep(S: Splicing, inNode: NodeId): Splicing {
    if S.failed then S
    else match FirstOutputKey(S.boxes, inNode)
      case None => S.(failed := true)
      case Some(v) =>
        match Get(S.outVars, v)
        case None => S.(inputs := S.inputs + [inNode])
        case Some(outNode) => SpliceMatch(S, v, outNode, inNode)
  }

  /** Lines 88-104: the input node `inNode` matches the output node `outNode` on `v`. */
  function SpliceMatch(S: Splicing, v: string, outNode: NodeId, inNode: NodeId): Splicing {
    var prev := if outNode in S.E.0 then First(S.E.0[outNode]) else None;
    var nxt := if inNode in S.E.1 then First(S.E.1[inNode]) else None;
    // The last two conditions hold in every valid forest: edges point at allocated nodes.
    if prev.None? || nxt.None? || prev.value !in S.E.1 || nxt.value !in S.E.0 then S.(failed := true)
    else S.(E := JoinEdges(S.E, v, outNode, inNode, prev.value, nxt.value, S.next),
            boxes := S.boxes[S.next := None], next := S.next + 1,
            outVars := Unset(S.outVars, v), joins := S.joins + [S.next])
  }

  /** The first `i` input nodes of the second tree, in order. */
  function SpliceAll(S: Splicing, ins: seq<NodeId>, i: nat): Splicing
    requires i <= |ins|
    decreases i, 1
  {
    if i == 0 then S else SpliceNext(S, ins, i)
  }

  /** Input node `i - 1` spliced after the ones before it. */
  function SpliceNext(S: Splicing, ins: seq<NodeId>, i: nat): Splicing
    requires 0 < i <= |ins|
    decreases i, 0
  {
    SpliceStep(SpliceAll(S, ins, i - 1), ins[i - 1])
  }

  lemma SpliceAllNext(S: Splicing, ins: seq<NodeId>, i: nat)
    requires 0 < i <= |ins|
    ensures SpliceAll(S, ins, i) == SpliceStep(SpliceAll(S, ins, i - 1), ins[i - 1])
  {
    assert SpliceAll(S, ins, i) == SpliceNext(S, ins, i);
  }

  /** The whole of `mergeTrees` on a forest with boxes `B`, edges `E` and `next` as the next id. */
  function MergePlan(B: map<NodeId, Option<Box>>, E: EdgeMaps, next: nat, first: MergeTree, second: MergeTree): Splicing {
    match OutIndex(B, first.outputs, |first.outputs|)
    case None => Splicing(E, B, next, [], [], [], true)
    case Some(d) => SpliceAll(Splicing(E, B, next, d, [], [], false), second.inputs, |second.inputs|)
  }

  /** Lines 111-119: the merged tree, or the failure. */
  function MergedTree(first: MergeTree, second: MergeTree, S: Splicing): Result<MergeTree, MergeError> {
    if S.failed then Failure(CallOnNonObject)
    else Success(MergeTree(first.inputs + S.inputs, Values(S.outVars) + second.outputs,
                           first.others + second.others + S.joins))
  }

  /**
   * One input node either leaves the forest and the index alone (it is
   * kept, or the merge fails) or is replaced by the fresh join node
   * `S.next`, consuming the index entry of its variable.
   */
  lemma SpliceStepShape(S: Splicing, inNode: NodeId)
    ensures var S' := SpliceStep(S, inNode);
            (S.failed ==> S' == S) &&
            ((S'.E == S.E && S'.boxes == S.boxes && S'.next == S.next && S'.outVars == S.outVars && S'.joins == S.joins &&
              (S'.failed ==> S'.inputs == S.inputs) &&
              (!S'.failed ==> S'.inputs == S.inputs + [inNode])) ||
             (!S.failed && !S'.failed && S'.next == S.next + 1 && S'.boxes == S.boxes[S.next := None] &&
              S'.joins == S.joins + [S.next] && S'.inputs == S.inputs &&
              FirstOutputKey(S.boxes, inNode).Some? && Get(S.outVars, FirstOutputKey(S.boxes, inNode).value).Some? &&
              S'.outVars == Unset(S.outVars, FirstOutputKey(S.boxes, inNode).value)))
  {
  }

  /** The state after the first `i` input nodes when nothing was indexed: the nodes pass through until one has no key. */
  ghost predicate PassedThrough(E: EdgeMaps, B: map<NodeId, Option<Box>>, next: nat, ins: seq<NodeId>, i: nat, S: Splicing)
    requires i <= |ins|
  {
    S.E == E && S.boxes == B && S.next == next && S.outVars == [] && S.joins == [] &&
    (S.failed <==> exists j :: 0 <= j < i && FirstOutputKey(B, ins[j]).None?) &&
    (!S.failed ==> S.inputs == ins[..i])
  }

  lemma PassedThroughStep(E: EdgeMaps, B: map<NodeId, Option<Box>>, next: nat, ins: seq<NodeId>, i: nat, S: Splicing)
    requires i < |ins| && PassedThrough(E, B, next, ins, i, S)
    ensures PassedThrough(E, B, next, ins, i + 1, SpliceStep(S, ins[i]))
  {
    if !S.failed && FirstOutputKey(B, ins[i]).Some? {
      assert ins[..i + 1] == ins[..i] + [ins[i]];
    }
  }

  /** With nothing to match against, the input nodes pass through one by one and the forest is left alone. */
  lemma {:induction false} SplicedFromEmpty(E: EdgeMaps, B: map<NodeId, Option<Box>>, next: nat, ins: seq<NodeId>, i: nat)
    requires i <= |ins|
    ensures PassedThrough(E, B, next, ins, i, SpliceAll(Splicing(E, B, next, [], [], [], false), ins, i))
  {
    if i > 0 {
      SplicedFromEmpty(E, B, next, ins, i - 1);
      SpliceAllNext(Splicing(E, B, next, [], [], [], false), ins, i);
      PassedThroughStep(E, B, next, ins, i - 1, SpliceAll(Splicing(E, B, next, [], [], [], false), ins, i - 1));
    }
  }

  /** Lines 111-118: merging into an empty tree gives back the second tree and changes no edge. */
  lemma MergeIntoEmpty(B: map<NodeId, Option<Box>>, E: EdgeMaps, next: nat, second: MergeTree)
    ensures var S := MergePlan(B, E, next, EMPTY_TREE, second);
            var r := MergedTree(EMPTY_TREE, second, S);
            S.E == E && S.boxes == B && S.next == next &&
            (r.Success? <==> forall j :: 0 <= j < |second.inputs| ==> FirstOutputKey(B, second.inputs[j]).Some?) &&
            (r.Success? ==> r.value == second)
  {
    SplicedFromEmpty(E, B, next, second.inputs, |second.inputs|);
    assert second.inputs[..|second.inputs|] == second.inputs;
  }

  /**
   * Lines 104-108 after `i` input nodes from `S0`: every input node is either
   * kept or replaced by exactly one join node, and every join consumes one
   * entry of the index, which is removed so that it is not matched again.
   * The join nodes are the fresh ids `S0.next`, `S0.next + 1`, ... in order.
   */
  ghost predicate Counted(S0: Splicing, i: nat, S: Splicing) {
    UniqueKeys(S.outVars) && |S0.joins| <= |S.joins| && S.next == S0.next + (|S.joins| - |S0.joins|) &&
    S.joins[..|S0.joins|] == S0.joins &&
    (forall t :: |S0.joins| <= t < |S.joins| ==> S.joins[t] == S0.next + (t - |S0.joins|)) &&
    (!S.failed ==> |S.inputs| + |S.joins| == |S0.inputs| + |S0.joins| + i &&
                   |S.outVars| + |S.joins| == |S0.outVars| + |S0.joins|)
  }

  lemma CountedStep(S0: Splicing, i: nat, S: Splicing, inNode: NodeId)
    requires Counted(S0, i, S)
    ensures Counted(S0, i + 1, SpliceStep(S, inNode))
  {
    SpliceStepShape(S, inNode);
    if !S.failed && FirstOutputKey(S.boxes, inNode).Some? {
      var v := FirstOutputKey(S.boxes, inNode).value;
      if Get(S.outVars, v).Some? {
        UnsetLength(S.outVars, v);
        UnsetSub(S.outVars, v);
        assert (S.joins + [S.next])[..|S0.joins|] == S.joins[..|S0.joins|];
      }
    }
  }

  lemma {:induction false} SpliceCounts(S0: Splicing, ins: seq<NodeId>, i: nat)
    requires i <= |ins| && !S0.failed && UniqueKeys(S0.outVars)
    ensures Counted(S0, i, SpliceAll(S0, ins, i))
  {
    if i > 0 {
      SpliceCounts(S0, ins, i - 1);
      SpliceAllNext(S0, ins, i);
      CountedStep(S0, i - 1, SpliceAll(S0, ins, i - 1), ins[i - 1]);
    }
  }

  /** From `S0` to `S` only join nodes were added, all without a box; every other node keeps its box. */
  ghost predicate BoxesKept(S0: Splicing, S: Splicing) {
    S0.next <= S.next &&
    (forall n :: S0.next <= n < S.next ==> n in S.boxes && S.boxes[n] == None) &&
    (forall n :: n in S0.boxes && !(S0.next <= n < S.next) ==> n in S.boxes && S.boxes[n] == S0.boxes[n])
  }

  lemma BoxesKeptStep(S0: Splicing, S: Splicing, inNode: NodeId)
    requires BoxesKept(S0, S)
    ensures BoxesKept(S0, SpliceStep(S, inNode))
  {
    SpliceStepShape(S, inNode);
  }

  /** The join nodes carry no box, and every other node keeps its box. */
  lemma {:induction false} SpliceBoxes(S0: Splicing, ins: seq<NodeId>, i: nat)
    requires i <= |ins|
    ensures BoxesKept(S0, SpliceAll(S0, ins, i))
  {
    if i > 0 {
      SpliceBoxes(S0, ins, i - 1);
      SpliceAllNext(S0, ins, i);
      BoxesKeptStep(S0, SpliceAll(S0, ins, i - 1), ins[i - 1]);
    }
  }

  /**
   * Lines 93-101: after a splice the previous node's child and the next
   * node's parent under `v` are the join node, whose only parent is the
   * previous node and whose only child is the next node, both under `v`;
   * the cut nodes are no longer neighbours of them, and no other node's
   * edges change.
   */
  lemma JoinEffect(E: EdgeMaps, v: string, outNode: NodeId, inNode: NodeId, prev: NodeId, nxt: NodeId, j: NodeId)
    requires prev in E.1 && nxt in E.0 && UniqueKeys(E.1[prev]) && UniqueKeys(E.0[nxt])
    requires j != prev && j != nxt && j != outNode && j != inNode
    ensures var R := JoinEdges(E, v, outNode, inNode, prev, nxt, j);
            prev in R.1 && nxt in R.0 && j in R.0 && j in R.1 &&
            Get(R.1[prev], v) == Some(j) && Get(R.0[nxt], v) == Some(j) &&
            R.0[j] == [(v, prev)] && R.1[j] == [(v, nxt)] &&
            (forall e :: e in R.1[prev] ==> e.1 != outNode) &&
            (forall e :: e in R.0[nxt] ==> e.1 != inNode) &&
            (forall x :: x in E.0 && x != nxt && x != j ==> x in R.0 && R.0[x] == E.0[x]) &&
            (forall x :: x in E.1 && x != prev && x != j ==> x in R.1 && R.1[x] == E.1[x])
  {
    var c := RemoveValue(E.1[prev], outNode);
    var p := RemoveValue(E.0[nxt], inNode);
    GetRemoveValue(E.1[prev], outNode, v);
    GetRemoveValue(E.0[nxt], inNode, v);
    GetPut(c, v, j, v);
    GetPut(p, v, j, v);
    PutElems(c, v, j);
    PutElems(p, v, j);
  }

  /** The sizes of the merged tree: each matched input node of the second tree is traded for one join node. */
  lemma MergeSizes(B: map<NodeId, Option<Box>>, E: EdgeMaps, next: nat, first: MergeTree, second: MergeTree)
    requires MergedTree(first, second, MergePlan(B, E, next, first, second)).Success?
    ensures var S := MergePlan(B, E, next, first, second);
            var t := MergedTree(first, second, S).value;
            var d := OutIndex(B, first.outputs, |first.outputs|);
            d.Some? && |d.value| <= |first.outputs| &&
            |t.inputs| + |S.joins| == |first.inputs| + |second.inputs| &&
            |t.outputs| + |S.joins| == |d.value| + |second.outputs| &&
            |t.others| == |first.others| + |second.others| + |S.joins| &&
            S.next == next + |S.joins| &&
            forall k :: 0 <= k < |S.joins| ==> S.joins[k] == next + k
  {
    OutIndexLastWins(B, first.outputs, |first.outputs|, "");
    var d := OutIndex(B, first.outputs, |first.outputs|).value;
    SpliceCounts(Splicing(E, B, next, d, [], [], false), second.inputs, |second.inputs|);
  }

  /** The lists built from `S0` hold only nodes they started with, input nodes seen and fresh join nodes. */
  ghost predicate Drawn(S0: Splicing, ins: seq<NodeId>, S: Splicing) {
    S0.next <= S.next &&
    (forall n :: n in S.inputs ==> n in S0.inputs || n in ins) &&
    (forall e :: e in S.outVars ==> e in S0.outVars) &&
    (forall n :: n in S.joins ==> n in S0.joins || S0.next <= n < S.next)
  }

  lemma DrawnStep(S0: Splicing, ins: seq<NodeId>, i: nat, S: Splicing)
    requires i < |ins| && Drawn(S0, ins, S)
    ensures Drawn(S0, ins, SpliceStep(S, ins[i]))
  {
    SpliceStepShape(S, ins[i]);
    if !S.failed && FirstOutputKey(S.boxes, ins[i]).Some? {
      UnsetSub(S.outVars, FirstOutputKey(S.boxes, ins[i]).value);
    }
  }

  lemma {:induction false} SpliceDrawn(S0: Splicing, ins: seq<NodeId>, i: nat)
    requires i <= |ins|
    ensures Drawn(S0, ins, SpliceAll(S0, ins, i))
  {
    if i > 0 {
      SpliceDrawn(S0, ins, i - 1);
      SpliceAllNext(S0, ins, i);
      DrawnStep(S0, ins, i - 1, SpliceAll(S0, ins, i - 1));
    }
  }

  /** A merged tree holds only allocated nodes when both trees did. */
  lemma MergeNodesAllocated(B: map<NodeId, Option<Box>>, E: EdgeMaps, next: nat, first: MergeTree, second: MergeTree)
    requires forall n :: n in AllNodes(first) ==> n < next
    requires forall n :: n in AllNodes(second) ==> n < next
    ensures var S := MergePlan(B, E, next, first, second);
            var r := MergedTree(first, second, S);
            next <= S.next && (r.Success? ==> forall n :: n in AllNodes(r.value) ==> n < S.next)
  {
    var S := MergePlan(B, E, next, first, second);
    var d := OutIndex(B, first.outputs, |first.outputs|);
    if d.Some? {
      var S0 := Splicing(E, B, next, d.value, [], [], false);
      SpliceDrawn(S0, second.inputs, |second.inputs|);
      forall e | e in d.value ensures e.1 in first.outputs {
        OutIndexFrom(B, first.outputs, |first.outputs|, e);
      }
      if !S.failed {
        var t := MergedTree(first, second, S).value;
        assert AllNodes(t) == first.inputs + S.inputs + (Values(S.outVars) + second.outputs)
                              + (first.others + second.others + S.joins);
        forall n | n in AllNodes(t) ensures n < S.next {
          if n in first.inputs || n in first.others {
            assert n in AllNodes(first);
          } else if n in second.outputs || n in second.others {
            assert n in AllNodes(second);
          } else if n in S.inputs {
            assert n in second.inputs;
            assert n in AllNodes(second);
          } else if n in Values(S.outVars) {
            var k :| 0 <= k < |S.outVars| && Values(S.outVars)[k] == n;
            assert S.outVars[k] in S.outVars;
            assert S.outVars[k] in d.value;
            assert n in first.outputs;
            assert n in AllNodes(first);
          } else {
            assert n in S.joins;
          }
        }
      }
    }
  }

  /** Once the merge has failed nothing changes any more. */
  lemma {:induction false} FailedStays(S0: Splicing, ins: seq<NodeId>, i: nat, k: nat)
    requires i <= k <= |ins| && SpliceAll(S0, ins, i).failed
    ensures SpliceAll(S0, ins, k) == SpliceAll(S0, ins, i)
  {
    if k > i {
      FailedStays(S0, ins, i, k - 1);
      SpliceAllNext(S0, ins, k);
    }
  }

  /** Input nodes whose key has no entry in the index pass through one by one. */
  lemma {:induction false} UnmatchedPass(S0: Splicing, ins: seq<NodeId>, i: nat)
    requires i <= |ins| && !S0.failed
    requires forall j :: 0 <= j < i ==> FirstOutputKey(S0.boxes, ins[j]).Some? &&
                                        Get(S0.outVars, FirstOutputKey(S0.boxes, ins[j]).value).None?
    ensures SpliceAll(S0, ins, i) == S0.(inputs := S0.inputs + ins[..i])
  {
    if i > 0 {
      UnmatchedPass(S0, ins, i - 1);
      SpliceAllNext(S0, ins, i);
      assert ins[..i] == ins[..i - 1] + [ins[i - 1]];
    }
  }

  /**
   * Lines 88-92: when an input node of the second tree is matched with an
   * output node that has no parent, `current($outNode->getParents())` is
   * false and the merge fails; input nodes before it whose key has no
   * entry in the index do not prevent this.
   */
  lemma OrphanMatchFails(B: map<NodeId, Option<Box>>, E: EdgeMaps, next: nat, first: MergeTree, second: MergeTree,
                         i: nat, v: string, n: NodeId)
    requires OutIndex(B, first.outputs, |first.outputs|).Some?
    requires Get(OutIndex(B, first.outputs, |first.outputs|).value, v) == Some(n)
    requires n in E.0 && E.0[n] == []
    requires i < |second.inputs| && FirstOutputKey(B, second.inputs[i]) == Some(v)
    requires forall j :: 0 <= j < i ==>
               FirstOutputKey(B, second.inputs[j]).Some? &&
               Get(OutIndex(B, first.outputs, |first.outputs|).value, FirstOutputKey(B, second.inputs[j]).value).None?
    ensures MergedTree(first, second, MergePlan(B, E, next, first, second)).Failure?
  {
    var S0 := Splicing(E, B, next, OutIndex(B, first.outputs, |first.outputs|).value, [], [], false);
    UnmatchedPass(S0, second.inputs, i);
    var Si := S0.(inputs := second.inputs[..i]);
    OrphanStepFails(Si, second.inputs[i], v, n);
    SpliceAllNext(S0, second.inputs, i + 1);
    FailedStays(S0, second.inputs, i + 1, |second.inputs|);
    assert MergePlan(B, E, next, first, second) == SpliceAll(S0, second.inputs, i + 1);
  }

  /** One splicing step that matches an input node with an output node without parents fails. */
  lemma OrphanStepFails(S: Splicing, inNode: NodeId, v: string, n: NodeId)
    requires !S.failed && FirstOutputKey(S.boxes, inNode) == Some(v) && Get(S.outVars, v) == Some(n)
    requires n in S.E.0 && S.E.0[n] == []
    ensures SpliceStep(S, inNode).failed
  {
  }

  // ---------------------------------------------------------------------
  // mergeTrees: the methods
  // ---------------------------------------------------------------------

  /** Lines 75-79: the first tree's output nodes indexed by their key, failing at a node without an input port. */
  method IndexOutputs(f: Forest, outs: seq<NodeId>) returns (r: Option<Dict<string, NodeId>>)
    requires forall n :: n in outs ==> n in f.boxOf
    ensures r == OutIndex(f.boxOf, outs, |outs|)
    ensures r.Some? ==> forall e :: e in r.value ==> e.1 in outs
  {
    var outVars: Dict<string, NodeId> := [];
    for i := 0 to |outs|
      invariant OutIndex(f.boxOf, outs, i) == Some(outVars)
      invariant forall e :: e in outVars ==> e.1 in outs[..i]
    {
      var outNode := outs[i];
      var box := f.boxOf[outNode];
      if box.None? || |box.value.inputs| == 0 {
        OutIndexLastWins(f.boxOf, outs, |outs|, "");
        return None;
      }
      PutElems(outVars, KeyOf(box.value.inputs[0].meta.variable), outNode);
      assert outs[..i + 1] == outs[..i] + [outNode];
      outVars := Put(outVars, KeyOf(box.value.inputs[0].meta.variable), outNode);
    }
    assert outs[..|outs|] == outs;
    r := Some(outVars);
  }

  /** Lines 93-101: the join node `j` spliced in between `prev` and `nxt`. */
  method JoinNodes(f: Forest, v: string, outNode: NodeId, inNode: NodeId, prev: NodeId, nxt: NodeId) returns (j: NodeId)
    requires f.Valid() && prev < f.next && nxt < f.next
    modifies f
    ensures f.Valid() && j == old(f.next) && f.next == old(f.next) + 1 && f.boxOf == old(f.boxOf)[j := None]
    ensures f.inTree == old(f.inTree) && f.tables == old(f.tables)
    ensures (f.parents, f.children) == JoinEdges((old(f.parents), old(f.children)), v, outNode, inNode, prev, nxt, j)
  {
    f.RemoveChild(prev, outNode);
    f.RemoveParent(nxt, inNode);
    j := f.NewNode(None);
    f.AddChild(prev, v, j);
    f.AddParent(j, v, prev);
    f.AddParent(nxt, v, j);
    f.AddChild(j, v, nxt);
  }

  /** Lines 84-109 for one input node of the second tree; `failed` when PHP would call a method on false. */
  method SpliceInput(f: Forest, outVars: Dict<string, NodeId>, inputs: seq<NodeId>, joins: seq<NodeId>, inNode: NodeId)
    returns (failed: bool, outVars': Dict<string, NodeId>, inputs': seq<NodeId>, joins': seq<NodeId>)
    requires f.Valid() && inNode < f.next && forall e :: e in outVars ==> e.1 < f.next
    modifies f
    ensures f.Valid() && f.inTree == old(f.inTree) && f.tables == old(f.tables) && old(f.next) <= f.next
    ensures forall e :: e in outVars' ==> e in outVars
    ensures SpliceStep(Splicing((old(f.parents), old(f.children)), old(f.boxOf), old(f.next), outVars, inputs, joins, false), inNode)
            == Splicing((f.parents, f.children), f.boxOf, f.next, outVars', inputs', joins', failed)
  {
    failed, outVars', inputs', joins' := false, outVars, inputs, joins;
    var box := f.boxOf[inNode];
    if box.None? || |box.value.outputs| == 0 {
      failed := true;
      return;
    }
    var v := KeyOf(box.value.outputs[0].meta.variable);
    var found := Get(outVars, v);
    if found.None? {
      inputs' := inputs + [inNode];
      return;
    }
    GetIn(outVars, v);
    failed, outVars', joins' := SpliceMatched(f, outVars, inputs, joins, v, found.value, inNode);
  }

  /** Lines 88-104: the previous and next nodes looked up, and the join node spliced in between. */
  method SpliceMatched(f: Forest, outVars: Dict<string, NodeId>, inputs: seq<NodeId>, joins: seq<NodeId>,
                       v: string, outNode: NodeId, inNode: NodeId)
    returns (failed: bool, outVars': Dict<string, NodeId>, joins': seq<NodeId>)
    requires f.Valid() && inNode < f.next && outNode < f.next
    modifies f
    ensures f.Valid() && f.inTree == old(f.inTree) && f.tables == old(f.tables) && old(f.next) <= f.next
    ensures forall e :: e in outVars' ==> e in outVars
    ensures SpliceMatch(Splicing((old(f.parents), old(f.children)), old(f.boxOf), old(f.next), outVars, inputs, joins, false),
                        v, outNode, inNode)
            == Splicing((f.parents, f.children), f.boxOf, f.next, outVars', inputs, joins', failed)
  {
    failed, outVars', joins' := false, outVars, joins;
    var previous := First(f.parents[outNode]);
    var next := First(f.children[inNode]);
    if previous.None? || next.None? {
      failed := true;
      return;
    }
    assert f.parents[outNode][0] in f.parents[outNode] && f.children[inNode][0] in f.children[inNode];
    var j := JoinNodes(f, v, outNode, inNode, previous.value, next.value);
    UnsetSub(outVars, v);
    outVars' := Unset(outVars, v);
    joins' := joins + [j];
  }

  /** Lines 84-109: the input nodes of the second tree in order, stopping where PHP would fail. */
  method SpliceInputs(f: Forest, index: Dict<string, NodeId>, ins: seq<NodeId>)
    returns (failed: bool, outVars: Dict<string, NodeId>, inputs: seq<NodeId>, joins: seq<NodeId>)
    requires f.Valid()
    requires forall n :: n in ins ==> n < f.next
    requires forall e :: e in index ==> e.1 < f.next
    modifies f
    ensures f.Valid() && f.inTree == old(f.inTree) && f.tables == old(f.tables)
    ensures SpliceAll(Splicing((old(f.parents), old(f.children)), old(f.boxOf), old(f.next), index, [], [], false), ins, |ins|)
            == Splicing((f.parents, f.children), f.boxOf, f.next, outVars, inputs, joins, failed)
  {
    ghost var S0 := Splicing((f.parents, f.children), f.boxOf, f.next, index, [], [], false);
    failed, outVars, inputs, joins := false, index, [], [];
    for i := 0 to |ins|
      invariant f.Valid() && f.inTree == old(f.inTree) && f.tables == old(f.tables) && old(f.next) <= f.next
      invariant forall e :: e in outVars ==> e.1 < f.next
      invariant SpliceAll(S0, ins, i) == Splicing((f.parents, f.children), f.boxOf, f.next, outVars, inputs, joins, false)
    {
      assert ins[i] in ins;
      SpliceAllNext(S0, ins, i + 1);
      failed, outVars, inputs, joins := SpliceInput(f, outVars, inputs, joins, ins[i]);
      if failed {
        FailedStays(S0, ins, i + 1, |ins|);
        return;
      }
    }
  }

  /**
   * `mergeTrees`: the forest and the result are those of MergePlan and
   * MergedTree, whose properties are stated by MergeIntoEmpty, MergeSizes,
   * JoinEffect and OutIndexLastWins.
   */
  method MergeTrees(f: Forest, first: MergeTree, second: MergeTree) returns (r: Result<MergeTree, MergeError>)
    requires f.Valid()
    requires forall n :: n in first.outputs ==> n < f.next
    requires forall n :: n in second.inputs ==> n < f.next
    modifies f
    ensures f.Valid() && f.inTree == old(f.inTree) && f.tables == old(f.tables)
    ensures var S := MergePlan(old(f.boxOf), (old(f.parents), old(f.children)), old(f.next), first, second);
            (f.parents, f.children) == S.E && f.boxOf == S.boxes && f.next == S.next &&
            r == MergedTree(first, second, S)
  {
    var index := IndexOutputs(f, first.outputs);
    if index.None? {
      return Failure(CallOnNonObject);
    }
    var failed, outVars, newSecondInput, joinNodes := SpliceInputs(f, index.value, second.inputs);
    if failed {
      return Failure(CallOnNonObject);
    }
    r := Success(MergeTree(first.inputs + newSecondInput, Values(outVars) + second.outputs,
                           first.others + second.others + joinNodes));
  }

  // ---------------------------------------------------------------------
  // Variables tables, pipelines, tests
  // ---------------------------------------------------------------------

  /** `tables` with each of `nodes` given `t`, one after the other. */
  function WithTables(tables: map<NodeId, Tables>, nodes: seq<NodeId>, t: Tables): map<NodeId, Tables>
    decreases |nodes|
  {
    if nodes == [] then tables else WithTables(tables, nodes[..|nodes| - 1], t)[nodes[|nodes| - 1] := t]
  }

  /** Every listed node gets `t`; every other node keeps its tables, or its lack of them. */
  lemma {:induction false} WithTablesFacts(tables: map<NodeId, Tables>, nodes: seq<NodeId>, t: Tables)
    ensures var r := WithTables(tables, nodes, t);
            (forall n :: n in nodes ==> n in r && r[n] == t) &&
            (forall n :: n !in nodes ==> (n in r <==> n in tables)) &&
            (forall n :: n in tables && n !in nodes ==> r[n] == tables[n])
    decreases |nodes|
  {
    if nodes != [] {
      WithTablesFacts(tables, nodes[..|nodes| - 1], t);
      assert nodes == nodes[..|nodes| - 1] + [nodes[|nodes| - 1]];
    }
  }

  /** Lines 53-62: every node of the tree gets the same three variables tables; no other node changes. */
  method SetVariablesTables(f: Forest, tree: MergeTree, t: Tables)
    requires f.Valid() && forall n :: n in AllNodes(tree) ==> n < f.next
    modifies f
    ensures f.Valid() && f.next == old(f.next) && f.boxOf == old(f.boxOf) && f.inTree == old(f.inTree)
    ensures f.parents == old(f.parents) && f.children == old(f.children)
    ensures f.tables == WithTables(old(f.tables), AllNodes(tree), t)
    ensures forall n :: n in AllNodes(tree) ==> n in f.tables && f.tables[n] == t
    ensures forall n :: n !in AllNodes(tree) ==> (n in f.tables <==> n in old(f.tables))
    ensures forall n :: n in old(f.tables) && n !in AllNodes(tree) ==> f.tables[n] == old(f.tables)[n]
  {
    var nodes := AllNodes(tree);
    for i := 0 to |nodes|
      invariant f.Valid() && f.next == old(f.next) && f.boxOf == old(f.boxOf) && f.inTree == old(f.inTree)
      invariant f.parents == old(f.parents) && f.children == old(f.children)
      invariant f.tables == WithTables(old(f.tables), nodes[..i], t)
    {
      assert nodes[i] in nodes;
      assert nodes[..i + 1][..i] == nodes[..i];
      f.SetTables(nodes[i], t);
    }
    assert nodes[..|nodes|] == nodes;
    WithTablesFacts(old(f.tables), nodes, t);
  }

  /** The forest and the result after `mergeTrees(first, second)`: MergePlan and MergedTree. */
  function MergeResult(s: ForestState, first: MergeTree, second: MergeTree): (ForestState, Result<MergeTree, MergeError>) {
    var S := MergePlan(s.boxOf, (s.parents, s.children), s.next, first, second);
    (s.(next := S.next, boxOf := S.boxes, parents := S.E.0, children := S.E.1), MergedTree(first, second, S))
  }

  /** The forest and the result after `processPipeline`: the pipeline's tree built, given its tables, merged into `tree`. */
  function PipelineResult(s: ForestState, tree: MergeTree, t: Tables, bs: seq<Box>): (ForestState, Result<MergeTree, MergeError>) {
    var built := BuiltState(s, bs);
    var pt := Classify(bs, s.next);
    MergeResult(built.(tables := WithTables(built.tables, AllNodes(pt), t)), tree, pt)
  }

  /**
   * `processPipeline` (lines 224-238): the pipeline's tree is built, each
   * of its nodes gets the test's variables for the pipeline, the
   * environment's and the pipeline's own tables, and it is merged into
   * `tree`.
   */
  method ProcessPipeline(f: Forest, tree: MergeTree, environment: VariablesTable, vars: PipelineVars, p: Pipeline)
    returns (r: Result<MergeTree, MergeError>)
    requires f.Valid() && Closed(p.boxes)
    requires forall n :: n in AllNodes(tree) ==> n < f.next
    modifies f
    ensures f.Valid() && old(f.next) + |p.boxes| <= f.next
    ensures (f.State(), r) == PipelineResult(old(f.State()), tree, Tables(vars.variablesTable, environment, p.variablesTable), p.boxes)
    ensures forall n :: n in AllNodes(Classify(p.boxes, old(f.next))) ==>
              n in f.tables && f.tables[n] == Tables(vars.variablesTable, environment, p.variablesTable)
    ensures r.Success? ==> forall n :: n in AllNodes(r.value) ==> n < f.next
    ensures tree == EMPTY_TREE && r.Success? ==> r.value == Classify(p.boxes, old(f.next))
  {
    var pipelineTree := BuildPipelineTree(f, p);
    ClassifyInRange(p.boxes, old(f.next));
    var tables := Tables(vars.variablesTable, environment, p.variablesTable);
    SetVariablesTables(f, pipelineTree, tables);
    r := MergeAllocated(f, tree, pipelineTree);
  }

  /** `MergeTrees` on two trees of allocated nodes gives a tree of allocated nodes. */
  method MergeAllocated(f: Forest, first: MergeTree, second: MergeTree) returns (r: Result<MergeTree, MergeError>)
    requires f.Valid()
    requires forall n :: n in AllNodes(first) ==> n < f.next
    requires forall n :: n in AllNodes(second) ==> n < f.next
    modifies f
    ensures f.Valid() && old(f.next) <= f.next
    ensures (f.State(), r) == MergeResult(old(f.State()), first, second)
    ensures r.Success? ==> forall n :: n in AllNodes(r.value) ==> n < f.next
    ensures first == EMPTY_TREE && r.Success? ==> r.value == second
  {
    ghost var B, E, next := f.boxOf, (f.parents, f.children), f.next;
    MergeIntoEmpty(B, E, next, second);
    forall n | n in first.outputs ensures n < f.next { assert n in AllNodes(first); }
    forall n | n in second.inputs ensures n < f.next { assert n in AllNodes(second); }
    r := MergeTrees(f, first, second);
    MergeNodesAllocated(B, E, next, first, second);
  }

  /**
   * Lines 251-254: the pipelines of the runtime environment, or the test's
   * own when the environment lists none. An environment the test does not
   * define is null in the source, and asking it for its pipelines fails.
   */
  function ChosenPipelines(test: Test, envId: string): (r: Result<Dict<string, PipelineVars>, MergeError>)
    ensures r.Failure? <==> Get(test.environments, envId).None?
    ensures r.Success? && Get(test.environments, envId).value.pipelines != [] ==>
              r.value == Get(test.environments, envId).value.pipelines
    ensures r.Success? && Get(test.environments, envId).value.pipelines == [] ==> r.value == test.pipelines
    ensures r == Success([]) ==> test.pipelines == []
  {
    match Get(test.environments, envId)
    case None => Failure(CallOnNonObject)
    case Some(env) => Success(if env.pipelines == [] then test.pipelines else env.pipelines)
  }

  /**
   * `processTest` over the first `i` chosen pipelines: a left fold of
   * PipelineResult from the empty tree that stops at the first pipeline id
   * missing from `repo` or at the first failed merge.
   */
  function FoldPipelines(s: ForestState, pipelines: Dict<string, PipelineVars>, environment: VariablesTable,
                         repo: map<string, Pipeline>, i: nat): (ForestState, Result<MergeTree, MergeError>)
    requires i <= |pipelines|
    decreases i, 2
  {
    if i == 0 then (s, Success(EMPTY_TREE)) else FoldNext(s, pipelines, environment, repo, i)
  }

  /**
   * Pipeline `i - 1` of the fold, applied to the fold of the ones before
   * it. FoldNext and FoldStep are one step split in two, so that unfolding
   * the fold does not reach PipelineResult unless a proof asks for it.
   */
  function FoldNext(s: ForestState, pipelines: Dict<string, PipelineVars>, environment: VariablesTable,
                    repo: map<string, Pipeline>, i: nat): (ForestState, Result<MergeTree, MergeError>)
    requires 0 < i <= |pipelines|
    decreases i, 1
  {
    FoldStep(s, pipelines, environment, repo, i)
  }

  function FoldStep(s: ForestState, pipelines: Dict<string, PipelineVars>, environment: VariablesTable,
                    repo: map<string, Pipeline>, i: nat): (ForestState, Result<MergeTree, MergeError>)
    requires 0 < i <= |pipelines|
    decreases i, 0
  {
    var prev := FoldPipelines(s, pipelines, environment, repo, i - 1);
    var id := pipelines[i - 1].0;
    if prev.1.Failure? then prev
    else if id !in repo then (prev.0, Failure(NotFoundException(id)))
    else PipelineResult(prev.0, prev.1.value, Tables(pipelines[i - 1].1.variablesTable, environment, repo[id].variablesTable),
                        repo[id].boxes)
  }

  /** `processTest`: the chosen pipelines folded, or the failure to choose them with the forest unchanged. */
  function TestResult(s: ForestState, test: Test, environment: VariablesTable, envId: string, repo: map<string, Pipeline>)
    : (ForestState, Result<MergeTree, MergeError>)
  {
    match ChosenPipelines(test, envId)
    case Failure(e) => (s, Failure(e))
    case Success(ps) => FoldPipelines(s, ps, environment, repo, |ps|)
  }

  /**
   * `processPipeline` as a function: the counter moves past the new nodes,
   * every node of the pipeline's own tree gets the pipeline's tables, and
   * every older node keeps the tables it had, or its lack of them.
   */
  lemma PipelineTables(s: ForestState, tree: MergeTree, t: Tables, bs: seq<Box>)
    ensures var r := PipelineResult(s, tree, t, bs).0;
            s.next + |bs| <= r.next &&
            (forall n :: n in AllNodes(Classify(bs, s.next)) ==> s.next <= n < s.next + |bs| && n in r.tables && r.tables[n] == t) &&
            (forall n :: n < s.next ==> (n in r.tables <==> n in s.tables) && (n in s.tables ==> r.tables[n] == s.tables[n]))
  {
    var built := BuiltState(s, bs);
    var pt := Classify(bs, s.next);
    ClassifyInRange(bs, s.next);
    WithTablesFacts(built.tables, AllNodes(pt), t);
    var st := built.(tables := WithTables(built.tables, AllNodes(pt), t));
    var d := OutIndex(st.boxOf, tree.outputs, |tree.outputs|);
    if d.Some? {
      SpliceBoxes(Splicing((st.parents, st.children), st.boxOf, st.next, d.value, [], [], false), pt.inputs, |pt.inputs|);
    }
  }

  /**
   * The tables of a successful fold: the nodes of the `k`-th chosen
   * pipeline hold that pipeline's tables (the test's variables for it, the
   * environment's, the pipeline's own) once the later pipelines are
   * merged too.
   */
  lemma {:induction false} FoldTables(s: ForestState, pipelines: Dict<string, PipelineVars>, environment: VariablesTable,
                                      repo: map<string, Pipeline>, i: nat, k: nat)
    requires k < i <= |pipelines| && FoldPipelines(s, pipelines, environment, repo, i).1.Success?
    ensures pipelines[k].0 in repo
    ensures var before := FoldPipelines(s, pipelines, environment, repo, k).0;
            var after := FoldPipelines(s, pipelines, environment, repo, i).0;
            var p := repo[pipelines[k].0];
            forall n :: n in AllNodes(Classify(p.boxes, before.next)) ==>
              n < after.next && n in after.tables && after.tables[n] == Tables(pipelines[k].1.variablesTable, environment, p.variablesTable)
  {
    FoldStepTables(s, pipelines, environment, repo, i);
    if k < i - 1 {
      FoldTables(s, pipelines, environment, repo, i - 1, k);
      var prev := FoldPipelines(s, pipelines, environment, repo, i - 1).0;
      var after := FoldPipelines(s, pipelines, environment, repo, i).0;
      var before := FoldPipelines(s, pipelines, environment, repo, k).0;
      var p := repo[pipelines[k].0];
      forall n | n in AllNodes(Classify(p.boxes, before.next))
        ensures n < after.next && n in after.tables && after.tables[n] == prev.tables[n]
      {
        assert n < prev.next && n in prev.tables;
      }
    }
  }

  /** One successful step of the fold, as PipelineTables states it. */
  lemma FoldStepTables(s: ForestState, pipelines: Dict<string, PipelineVars>, environment: VariablesTable,
                       repo: map<string, Pipeline>, i: nat)
    requires 0 < i <= |pipelines| && FoldPipelines(s, pipelines, environment, repo, i).1.Success?
    ensures var prev := FoldPipelines(s, pipelines, environment, repo, i - 1);
            var after := FoldPipelines(s, pipelines, environment, repo, i).0;
            var id := pipelines[i - 1].0;
            prev.1.Success? && id in repo && prev.0.next <= after.next &&
            (forall n :: n in AllNodes(Classify(repo[id].boxes, prev.0.next)) ==>
               n < after.next && n in after.tables &&
               after.tables[n] == Tables(pipelines[i - 1].1.variablesTable, environment, repo[id].variablesTable)) &&
            (forall n :: n < prev.0.next ==>
               (n in after.tables <==> n in prev.0.tables) && (n in prev.0.tables ==> after.tables[n] == prev.0.tables[n]))
  {
    FoldSucceeded(s, pipelines, environment, repo, i);
    var prev := FoldPipelines(s, pipelines, environment, repo, i - 1);
    var id := pipelines[i - 1].0;
    PipelineTables(prev.0, prev.1.value, Tables(pipelines[i - 1].1.variablesTable, environment, repo[id].variablesTable),
                   repo[id].boxes);
  }

  lemma FoldPipelinesNext(s: ForestState, pipelines: Dict<string, PipelineVars>, environment: VariablesTable,
                          repo: map<string, Pipeline>, i: nat)
    requires 0 < i <= |pipelines|
    ensures FoldPipelines(s, pipelines, environment, repo, i) == FoldStep(s, pipelines, environment, repo, i)
  {
    assert FoldPipelines(s, pipelines, environment, repo, i) == FoldNext(s, pipelines, environment, repo, i);
  }

  /** A successful fold over `i` pipelines is pipeline `i - 1` merged into the successful fold before it. */
  lemma FoldSucceeded(s: ForestState, pipelines: Dict<string, PipelineVars>, environment: VariablesTable,
                      repo: map<string, Pipeline>, i: nat)
    requires 0 < i <= |pipelines| && FoldPipelines(s, pipelines, environment, repo, i).1.Success?
    ensures var prev := FoldPipelines(s, pipelines, environment, repo, i - 1);
            var id := pipelines[i - 1].0;
            prev.1.Success? && id in repo &&
            FoldPipelines(s, pipelines, environment, repo, i) ==
              PipelineResult(prev.0, prev.1.value, Tables(pipelines[i - 1].1.variablesTable, environment, repo[id].variablesTable),
                             repo[id].boxes)
  {
    FoldPipelinesNext(s, pipelines, environment, repo, i);
  }

  /** Once the fold has failed it stays as it is. */
  lemma {:induction false} FoldFailedStays(s: ForestState, pipelines: Dict<string, PipelineVars>, environment: VariablesTable,
                                           repo: map<string, Pipeline>, i: nat, k: nat)
    requires i <= k <= |pipelines| && FoldPipelines(s, pipelines, environment, repo, i).1.Failure?
    ensures FoldPipelines(s, pipelines, environment, repo, k) == FoldPipelines(s, pipelines, environment, repo, i)
  {
    if k > i {
      FoldFailedStays(s, pipelines, environment, repo, i, k - 1);
      FoldPipelinesNext(s, pipelines, environment, repo, k);
    }
  }

  /**
   * `processTest` (lines 247-270): the chosen pipelines are looked up in
   * `repo` (the pipeline repository with every configuration already
   * loaded) and merged one after the other into a tree that starts empty.
   */
  method ProcessTest(f: Forest, test: Test, environment: VariablesTable, envId: string, repo: map<string, Pipeline>)
    returns (r: Result<MergeTree, MergeError>)
    requires f.Valid() && forall id :: id in repo ==> Closed(repo[id].boxes)
    modifies f
    ensures f.Valid() && old(f.next) <= f.next
    ensures (f.State(), r) == TestResult(old(f.State()), test, environment, envId, repo)
    ensures r.Success? ==> ChosenPipelines(test, envId).Success?
    ensures r.Success? ==> forall n :: n in AllNodes(r.value) ==> n < f.next
  {
    var chosen := ChosenPipelines(test, envId);
    if chosen.Failure? {
      return Failure(CallOnNonObject);
    }
    r := ProcessPipelines(f, chosen.value, environment, repo);
  }

  /** Lines 256-269: the chosen pipelines merged one after the other into a tree that starts empty. */
  method ProcessPipelines(f: Forest, pipelines: Dict<string, PipelineVars>, environment: VariablesTable, repo: map<string, Pipeline>)
    returns (r: Result<MergeTree, MergeError>)
    requires f.Valid() && forall id :: id in repo ==> Closed(repo[id].boxes)
    modifies f
    ensures f.Valid() && old(f.next) <= f.next
    ensures (f.State(), r) == FoldPipelines(old(f.State()), pipelines, environment, repo, |pipelines|)
    ensures r.Success? ==> forall n :: n in AllNodes(r.value) ==> n < f.next
  {
    var tree := EMPTY_TREE;
    for i := 0 to |pipelines|
      invariant f.Valid() && old(f.next) <= f.next
      invariant (f.State(), Success(tree)) == FoldPipelines(old(f.State()), pipelines, environment, repo, i)
      invariant forall n :: n in AllNodes(tree) ==> n < f.next
    {
      var merged := ProcessNext(f, tree, environment, repo, pipelines, i, old(f.State()));
      if merged.Failure? {
        FoldFailedStays(old(f.State()), pipelines, environment, repo, i + 1, |pipelines|);
        return merged;
      }
      tree := merged.value;
    }
    return Success(tree);
  }

  /** Lines 256-267 for the `i`-th chosen pipeline: looked up in `repo`, then processed into the tree so far. */
  method ProcessNext(f: Forest, tree: MergeTree, environment: VariablesTable, repo: map<string, Pipeline>,
                     pipelines: Dict<string, PipelineVars>, i: nat, ghost s0: ForestState)
    returns (r: Result<MergeTree, MergeError>)
    requires f.Valid() && forall id :: id in repo ==> Closed(repo[id].boxes)
    requires i < |pipelines| && (f.State(), Success(tree)) == FoldPipelines(s0, pipelines, environment, repo, i)
    requires forall n :: n in AllNodes(tree) ==> n < f.next
    modifies f
    ensures f.Valid() && old(f.next) <= f.next
    ensures (f.State(), r) == FoldPipelines(s0, pipelines, environment, repo, i + 1)
    ensures r.Success? ==> forall n :: n in AllNodes(r.value) ==> n < f.next
  {
    var id := pipelines[i].0;
    if id !in repo {
      r := Failure(NotFoundException(id));
      FoldPipelinesNext(s0, pipelines, environment, repo, i + 1);
      assert (f.State(), r) == FoldStep(s0, pipelines, environment, repo, i + 1);
      return;
    }
    r := ProcessPipeline(f, tree, environment, pipelines[i].1, repo[id]);
    FoldPipelinesNext(s0, pipelines, environment, repo, i + 1);
    assert (f.State(), r) == FoldStep(s0, pipelines, environment, repo, i + 1);
  }

  /**
   * Lines 247-270: with no pipeline chosen the tree is empty, and with one
   * pipeline it is that pipeline's own tree, its nodes numbered from the
   * forest's next id.
   */
  lemma TestResultShort(s: ForestState, test: Test, environment: VariablesTable, envId: string, repo: map<string, Pipeline>)
    ensures var c := ChosenPipelines(test, envId);
            var r := TestResult(s, test, environment, envId, repo).1;
            (c.Failure? ==> r == Failure(CallOnNonObject)) &&
            (c == Success([]) ==> r == Success(EMPTY_TREE)) &&
            (c.Success? && |c.value| == 1 && r.Success? ==> r.value == Classify(repo[c.value[0].0].boxes, s.next))
  {
    var c := ChosenPipelines(test, envId);
    if c.Success? && |c.value| == 1 {
      var id := c.value[0].0;
      if id in repo {
        var bs := repo[id].boxes;
        var built := BuiltState(s, bs);
        var t := Tables(c.value[0].1.variablesTable, environment, repo[id].variablesTable);
        var st := built.(tables := WithTables(built.tables, AllNodes(Classify(bs, s.next)), t));
        MergeIntoEmpty(st.boxOf, (st.parents, st.children), st.next, Classify(bs, s.next));
      }
    }
  }

  /** Every tree stored in `d` holds only nodes below `next`. */
  ghost predicate TreesBelow(d: Dict<string, MergeTree>, next: nat) {
    forall k, n :: 0 <= k < |d| && n in AllNodes(d[k].1) ==> n < next
  }

  /** Storing a tree of allocated nodes keeps every stored tree allocated. */
  lemma PutTreesBelow(out: Dict<string, MergeTree>, key: string, t: MergeTree, next: nat)
    requires TreesBelow(out, next) && forall n :: n in AllNodes(t) ==> n < next
    ensures TreesBelow(Put(out, key, t), next)
  {
    PutElems(out, key, t);
    var out' := Put(out, key, t);
    forall k, n | 0 <= k < |out'| && n in AllNodes(out'[k].1) ensures n < next {
      assert out'[k] in out';
      if out'[k] != (key, t) {
        var k' :| 0 <= k' < |out| && out[k'] == out'[k];
      }
    }
  }

  /**
   * `merge` over the first `i` tests: each test's tree stored under its
   * key, the forest threaded from one test to the next, stopping at the
   * first test that fails.
   */
  function MergeFold(s: ForestState, tests: Dict<string, Test>, environment: VariablesTable, envId: string,
                     repo: map<string, Pipeline>, i: nat): (ForestState, Result<Dict<string, MergeTree>, MergeError>)
    requires i <= |tests|
    decreases i, 1
  {
    if i == 0 then (s, Success([])) else MergeStep(s, tests, environment, envId, repo, i)
  }

  /** Test `i - 1` of the merge, applied to the merge of the ones before it. */
  function MergeStep(s: ForestState, tests: Dict<string, Test>, environment: VariablesTable, envId: string,
                     repo: map<string, Pipeline>, i: nat): (ForestState, Result<Dict<string, MergeTree>, MergeError>)
    requires 0 < i <= |tests|
    decreases i, 0
  {
    var prev := MergeFold(s, tests, environment, envId, repo, i - 1);
    if prev.1.Failure? then prev
    else
      var t := TestResult(prev.0, tests[i - 1].1, environment, envId, repo);
      if t.1.Failure? then (t.0, Failure(t.1.error))
      else (t.0, Success(Put(prev.1.value, tests[i - 1].0, t.1.value)))
  }

  /** Once the merge has failed it stays as it is. */
  lemma {:induction false} MergeFailedStays(s: ForestState, tests: Dict<string, Test>, environment: VariablesTable, envId: string,
                                            repo: map<string, Pipeline>, i: nat, k: nat)
    requires i <= k <= |tests| && MergeFold(s, tests, environment, envId, repo, i).1.Failure?
    ensures MergeFold(s, tests, environment, envId, repo, k) == MergeFold(s, tests, environment, envId, repo, i)
  {
    if k > i {
      MergeFailedStays(s, tests, environment, envId, repo, i, k - 1);
    }
  }

  /** A merge that succeeds has found a pipeline choice for every test it went through. */
  lemma {:induction false} MergeChosen(s: ForestState, tests: Dict<string, Test>, environment: VariablesTable, envId: string,
                                       repo: map<string, Pipeline>, i: nat)
    requires i <= |tests| && MergeFold(s, tests, environment, envId, repo, i).1.Success?
    ensures forall k :: 0 <= k < i ==> ChosenPipelines(tests[k].1, envId).Success?
  {
    if i > 0 {
      assert MergeFold(s, tests, environment, envId, repo, i) == MergeStep(s, tests, environment, envId, repo, i);
      MergeChosen(s, tests, environment, envId, repo, i - 1);
    }
  }

  /**
   * `merge` (lines 279-289): one merged tree per test of the exercise
   * configuration, under the test's key and in the configuration's order,
   * each built on the forest the previous test left. The first failing
   * test makes the whole merge fail.
   */
  method Merge(f: Forest, config: ExerciseConfig, environment: VariablesTable, envId: string, repo: map<string, Pipeline>)
    returns (r: Result<Dict<string, MergeTree>, MergeError>)
    requires f.Valid() && config.Valid() && forall id :: id in repo ==> Closed(repo[id].boxes)
    modifies f
    ensures f.Valid() && old(f.next) <= f.next
    ensures (f.State(), r) == MergeFold(old(f.State()), config.tests, environment, envId, repo, |config.tests|)
    ensures r.Success? ==> Keys(r.value) == Keys(config.tests) && UniqueKeys(r.value)
    ensures r.Success? ==> forall k :: 0 <= k < |config.tests| ==> ChosenPipelines(config.tests[k].1, envId).Success?
    ensures r.Success? ==> TreesBelow(r.value, f.next)
  {
    var tests := config.tests;
    var out: Dict<string, MergeTree> := [];
    for i := 0 to |tests|
      invariant f.Valid() && old(f.next) <= f.next && config.tests == tests
      invariant (f.State(), Success(out)) == MergeFold(old(f.State()), tests, environment, envId, repo, i)
      invariant Keys(out) == Keys(tests[..i]) && UniqueKeys(out) && TreesBelow(out, f.next)
    {
      var merged := MergeNext(f, tests, environment, envId, repo, out, i, old(f.State()));
      if merged.Failure? {
        MergeFailedStays(old(f.State()), tests, environment, envId, repo, i + 1, |tests|);
        return merged;
      }
      out := merged.value;
    }
    assert tests[..|tests|] == tests;
    MergeChosen(old(f.State()), tests, environment, envId, repo, |tests|);
    return Success(out);
  }

  /** One pass of the loop of `merge`: test `i` merged and its tree stored under its key. */
  method MergeNext(f: Forest, tests: Dict<string, Test>, environment: VariablesTable, envId: string,
                   repo: map<string, Pipeline>, out: Dict<string, MergeTree>, i: nat, ghost s0: ForestState)
    returns (r: Result<Dict<string, MergeTree>, MergeError>)
    requires f.Valid() && UniqueKeys(tests) && i < |tests| && forall id :: id in repo ==> Closed(repo[id].boxes)
    requires (f.State(), Success(out)) == MergeFold(s0, tests, environment, envId, repo, i)
    requires Keys(out) == Keys(tests[..i]) && UniqueKeys(out) && TreesBelow(out, f.next)
    modifies f
    ensures f.Valid() && old(f.next) <= f.next
    ensures (f.State(), r) == MergeFold(s0, tests, environment, envId, repo, i + 1)
    ensures r.Success? ==> Keys(r.value) == Keys(tests[..i + 1]) && UniqueKeys(r.value) && TreesBelow(r.value, f.next)
  {
    ghost var next := f.next;
    var tree := ProcessTest(f, tests[i].1, environment, envId, repo);
    if tree.Failure? {
      r := Failure(tree.error);
      assert (f.State(), r) == MergeStep(s0, tests, environment, envId, repo, i + 1);
      return;
    }
    assert TreesBelow(out, f.next) by {
      assert next <= f.next;
    }
    PutNextKey(tests, i, out, tree.value);
    PutTreesBelow(out, tests[i].0, tree.value, f.next);
    r := Success(Put(out, tests[i].0, tree.value));
    assert (f.State(), r) == MergeStep(s0, tests, environment, envId, repo, i + 1);
  }
}
