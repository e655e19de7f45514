/**
 * The node graph the pipeline merger builds and rewires. The Node and
 * MergeTree classes are not part of this model; they appear only through
 * the interface the merger uses. All nodes live in one arena (`Forest`)
 * and are named by their id. Each node keeps an optional box (join nodes
 * have none), its parent and child edges keyed by variable name (a PHP
 * array, so ordered and with unique keys), an in-tree flag and the
 * variables tables assigned to it.
 */
module Tree {
  import opened Wrappers
  import opened PhpArray
  import opened Ports
  import opened ExerciseConfigs

  type NodeId = nat

  /** Edges of every node: variable name to the node on the other end. */
  type Edges = map<NodeId, Dict<string, NodeId>>

  /** Whether a box is a data-in box, a data-out box or any other box. */
  datatype BoxRole = DataInRole | DataOutRole | OtherRole

  /** A box of a pipeline as the merger sees it: its name, role and ports. */
  datatype Box = Box(name: string, role: BoxRole, inputs: seq<Port>, outputs: seq<Port>)

  /** A pipeline: its boxes in declaration order and its own variables table. */
  datatype Pipeline = Pipeline(boxes: seq<Box>, variablesTable: VariablesTable)

  /** The three variables tables a node holds (exercise, environment, pipeline). */
  datatype Tables = Tables(exercise: VariablesTable, environment: VariablesTable, pipeline: VariablesTable)

  /** The frontier of a (partly merged) pipeline graph: input, output and other nodes. */
  datatype MergeTree = MergeTree(inputs: seq<NodeId>, outputs: seq<NodeId>, others: seq<NodeId>)

  const EMPTY_TREE := MergeTree([], [], [])

  /** `getAllNodes()`: the three sets one after the other. */
  function AllNodes(t: MergeTree): seq<NodeId> {
    t.inputs + t.outputs + t.others
  }

  /** The variable a port is bound to, None when the name is empty. */
  function BoundVar(p: Port): (r: Option<string>)
    ensures r.Some? <==> !IsEmpty(p.meta.variable)
    ensures r.Some? ==> r == p.meta.variable
  {
    if IsEmpty(p.meta.variable) then None else p.meta.variable
  }

  /** Some port of `ports` is bound to `v`. */
  predicate Binds(ports: seq<Port>, v: string) {
    exists j :: 0 <= j < |ports| && BoundVar(ports[j]) == Some(v)
  }

  predicate Consumes(b: Box, v: string) {
    Binds(b.inputs, v)
  }

  predicate Produces(b: Box, v: string) {
    Binds(b.outputs, v)
  }

  /** The edges one linking step records: `m` becomes the parent of `n` under `v`, and `n` the child of `m`. */
  function LinkEdges(P: Edges, C: Edges, m: NodeId, v: string, n: NodeId): (Edges, Edges)
    requires m in C && n in P
  {
    (P[n := Put(P[n], v, m)], C[m := Put(C[m], v, n)])
  }

  /** No edge has an empty variable name. */
  predicate KeysBound(base: nat, P: Edges, C: Edges) {
    (forall n, e :: n in P && base <= n && e in P[n] ==> !IsEmpty(Some(e.0))) &&
    (forall m, e :: m in C && base <= m && e in C[m] ==> !IsEmpty(Some(e.0)))
  }

  /**
   * An edge `m -v-> n` among the nodes built for `bs` (node `base + k` for
   * box `k`): the box of `m` produces `v` and the box of `n` consumes it.
   */
  predicate EdgeOk(bs: seq<Box>, base: nat, m: NodeId, v: string, n: NodeId) {
    base <= m < base + |bs| && base <= n < base + |bs| &&
    Produces(bs[m - base], v) && Consumes(bs[n - base], v)
  }

  /** Every edge of a node built for `bs` joins a producer of its variable to a consumer of it. */
  predicate Sound(bs: seq<Box>, base: nat, P: Edges, C: Edges) {
    (forall n, e :: n in P && base <= n && e in P[n] ==> EdgeOk(bs, base, e.1, e.0, n)) &&
    (forall m, e :: m in C && base <= m && e in C[m] ==> EdgeOk(bs, base, m, e.0, e.1))
  }

  /** Every child edge of a node from `base` on is matched by the parent edge back. */
  predicate Symmetric(base: nat, P: Edges, C: Edges) {
    forall m, e :: m in C && base <= m && e in C[m] ==> e.1 in P && Get(P[e.1], e.0) == Some(m)
  }

  /** No variable is produced by two boxes. */
  ghost predicate SingleProducer(bs: seq<Box>) {
    forall k1, k2, v :: 0 <= k1 < |bs| && 0 <= k2 < |bs| && Produces(bs[k1], v) && Produces(bs[k2], v) ==> k1 == k2
  }

  /** Well-formed edge map: every array has unique keys and every target is allocated. */
  predicate WellFormed(E: Edges, bound: nat) {
    forall n :: n in E ==> UniqueKeys(E[n]) && forall e :: e in E[n] ==> e.1 < bound
  }

  /** The fields of a forest, as one value. */
  datatype ForestState = ForestState(next: nat, boxOf: map<NodeId, Option<Box>>, parents: Edges, children: Edges,
                                     inTree: set<NodeId>, tables: map<NodeId, Tables>)

  class Forest {
    var next: nat
    var boxOf: map<NodeId, Option<Box>>
    var parents: Edges
    var children: Edges
    var inTree: set<NodeId>
    var tables: map<NodeId, Tables>

    /** Exactly the ids below `next` are allocated, and every edge array is well formed. */
    ghost predicate Valid()
      reads this
    {
      (forall n: NodeId :: n in boxOf <==> n < next) &&
      (forall n: NodeId :: n in parents <==> n < next) &&
      (forall n: NodeId :: n in children <==> n < next) &&
      (forall n :: n in inTree ==> n < next) &&
      (forall n :: n in tables ==> n < next) &&
      WellFormed(parents, next) && WellFormed(children, next)
    }

    ghost function State(): ForestState
      reads this
    {
      ForestState(next, boxOf, parents, children, inTree, tables)
    }

    constructor ()
      ensures Valid() && next == 0
    {
      next := 0;
      boxOf := map[];
      parents := map[];
      children := map[];
      inTree := {};
      tables := map[];
    }

    /** `new Node($box)` (or `new Node` for a join node): no edges, not in a tree, no tables. */
    method NewNode(box: Option<Box>) returns (n: NodeId)
      requires Valid()
      modifies this
      ensures Valid()
      ensures n == old(next) && next == old(next) + 1
      ensures boxOf == old(boxOf)[n := box]
      ensures parents == old(parents)[n := []] && children == old(children)[n := []]
      ensures inTree == old(inTree) && tables == old(tables)
    {
      n := next;
      next := next + 1;
      boxOf := boxOf[n := box];
      parents := parents[n := []];
      children := children[n := []];
    }

    /** `$m->addChild($v, $n)`. */
    method AddChild(m: NodeId, v: string, n: NodeId)
      requires Valid() && m < next && n < next
      modifies this
      ensures Valid()
      ensures children == old(children)[m := Put(old(children)[m], v, n)]
      ensures next == old(next) && boxOf == old(boxOf) && parents == old(parents)
      ensures inTree == old(inTree) && tables == old(tables)
    {
      PutUnique(children[m], v, n);
      PutElems(children[m], v, n);
      children := children[m := Put(children[m], v, n)];
    }

    /** `$n->addParent($v, $m)`. */
    method AddParent(n: NodeId, v: string, m: NodeId)
      requires Valid() && m < next && n < next
      modifies this
      ensures Valid()
      ensures parents == old(parents)[n := Put(old(parents)[n], v, m)]
      ensures next == old(next) && boxOf == old(boxOf) && children == old(children)
      ensures inTree == old(inTree) && tables == old(tables)
    {
      PutUnique(parents[n], v, m);
      PutElems(parents[n], v, m);
      parents := parents[n := Put(parents[n], v, m)];
    }

    /** `$m->removeChild($n)`: every child edge of `m` to `n` is dropped. */
    method RemoveChild(m: NodeId, n: NodeId)
      requires Valid() && m < next
      modifies this
      ensures Valid()
      ensures children == old(children)[m := RemoveValue(old(children)[m], n)]
      ensures next == old(next) && boxOf == old(boxOf) && parents == old(parents)
      ensures inTree == old(inTree) && tables == old(tables)
    {
      GetRemoveValue(children[m], n, "");
      children := children[m := RemoveValue(children[m], n)];
    }

    /** `$n->removeParent($m)`: every parent edge of `n` to `m` is dropped. */
    method RemoveParent(n: NodeId, m: NodeId)
      requires Valid() && n < next
      modifies this
      ensures Valid()
      ensures parents == old(parents)[n := RemoveValue(old(parents)[n], m)]
      ensures next == old(next) && boxOf == old(boxOf) && children == old(children)
      ensures inTree == old(inTree) && tables == old(tables)
    {
      GetRemoveValue(parents[n], m, "");
      parents := parents[n := RemoveValue(parents[n], m)];
    }

    /** `$n->setInTree(true)`. */
    method SetInTree(n: NodeId)
      requires Valid() && n < next
      modifies this
      ensures Valid()
      ensures inTree == old(inTree) + {n}
      ensures next == old(next) && boxOf == old(boxOf) && parents == old(parents) && children == old(children)
      ensures tables == old(tables)
    {
      inTree := inTree + {n};
    }

    /** The three `set...Variables` calls on one node. */
    method SetTables(n: NodeId, t: Tables)
      requires Valid() && n < next
      modifies this
      ensures Valid()
      ensures tables == old(tables)[n := t]
      ensures next == old(next) && boxOf == old(boxOf) && parents == old(parents) && children == old(children)
      ensures inTree == old(inTree)
    {
      tables := tables[n := t];
    }
  }

  /** Linking an edge that joins a producer to a consumer keeps every edge sound. */
  lemma LinkKeepsSound(bs: seq<Box>, base: nat, P: Edges, C: Edges, m: NodeId, v: string, n: NodeId)
    requires m in C && n in P
    requires Sound(bs, base, P, C) && EdgeOk(bs, base, m, v, n)
    ensures Sound(bs, base, LinkEdges(P, C, m, v, n).0, LinkEdges(P, C, m, v, n).1)
  {
    PutElems(P[n], v, m);
    PutElems(C[m], v, n);
  }

  /** Linking keeps edge names non-empty when the linked variable is non-empty. */
  lemma LinkKeepsKeysBound(base: nat, P: Edges, C: Edges, m: NodeId, v: string, n: NodeId)
    requires m in C && n in P
    requires KeysBound(base, P, C) && !IsEmpty(Some(v))
    ensures KeysBound(base, LinkEdges(P, C, m, v, n).0, LinkEdges(P, C, m, v, n).1)
  {
    PutElems(P[n], v, m);
    PutElems(C[m], v, n);
  }

  /**
   * When no variable has two producers, a linking step that records both
   * directions keeps every child edge matched by its parent edge: a parent
   * edge it overwrites can only have pointed to the same producer.
   */
  lemma LinkKeepsSymmetric(bs: seq<Box>, base: nat, P: Edges, C: Edges, m: NodeId, v: string, n: NodeId)
    requires m in C && n in P
    requires forall x :: base <= x < base + |bs| ==> x in P
    requires Sound(bs, base, P, C) && Symmetric(base, P, C)
    requires EdgeOk(bs, base, m, v, n) && SingleProducer(bs)
    ensures Symmetric(base, LinkEdges(P, C, m, v, n).0, LinkEdges(P, C, m, v, n).1)
  {
    var (P', C') := LinkEdges(P, C, m, v, n);
    forall m', e | m' in C' && base <= m' && e in C'[m']
      ensures e.1 in P' && Get(P'[e.1], e.0) == Some(m')
    {
      var added := m' == m && e == (v, n);
      if !added {
        if m' == m {
          PutElems(C[m], v, n);
        }
        assert e in C[m'];
        assert EdgeOk(bs, base, m', e.0, e.1);
      }
      assert e.1 in P;
      GetPut(P[n], v, m, e.0);
      if e.1 == n && e.0 == v {
        assert Produces(bs[m' - base], v);
        assert m' - base == m - base;
      }
    }
  }
}
