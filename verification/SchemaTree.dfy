/** The tree of the supported data model and the bucketed index over it. A node is named by its position
    in the order of creation, where the source has a pointer. */
module SchemaTree {
  import opened Options
  import opened SchemaPaths

  datatype Kind =
    | MultiInstance | SingleInstance
    | ConstantValue | NumEntries
    | DbReadWrite | DbReadOnly | DbReadOnlyAuto | DbReadWriteAuto | DbSecure
    | VendorReadOnly | VendorReadWrite
    | SyncOperation | AsyncOperation | Event

  predicate IsObject(k: Kind) {
    k == MultiInstance || k == SingleInstance
  }

  /** The parent is not stored by the source; it is what a child list refers back to. */
  datatype Node = Node(
    name: string,
    kind: Kind,
    path: string,
    hash: nat,
    tables: seq<nat>,           // the tables on the way to this node, itself included
    children: seq<nat>,
    parent: nat)

  const BUCKETS: nat := 1024
  const MAX_SEGMENTS: nat := 32
  const ROOTS: nat := 2          // the nodes "Device" and "Internal"

  datatype Tree = Tree(nodes: seq<Node>, buckets: seq<seq<nat>>)

  // ---------------------------------------------------------------------------------------
  // Looking up by hash.

  function FindIn(nodes: seq<Node>, bucket: seq<nat>, hash: nat): (r: Option<nat>)
    ensures r.Some? ==> r.value in bucket && r.value < |nodes| && nodes[r.value].hash == hash
    ensures r.None? ==> forall id :: id in bucket && id < |nodes| ==> nodes[id].hash != hash
  {
    if bucket == [] then None
    else if bucket[0] < |nodes| && nodes[bucket[0]].hash == hash then Some(bucket[0])
    else FindIn(nodes, bucket[1..], hash)
  }

  function Find(t: Tree, hash: nat): Option<nat>
    requires |t.buckets| == BUCKETS
  {
    FindIn(t.nodes, t.buckets[hash % BUCKETS], hash)
  }

  /** The bucket holds exactly the nodes whose hash belongs there, each once. */
  predicate BucketOk(nodes: seq<Node>, bucket: seq<nat>, b: nat) {
    && (forall k :: 0 <= k < |bucket| ==> bucket[k] < |nodes| && nodes[bucket[k]].hash % BUCKETS == b)
    && (forall id :: 0 <= id < |nodes| && nodes[id].hash % BUCKETS == b ==> id in bucket)
    && (forall j, k :: 0 <= j < k < |bucket| ==> bucket[j] != bucket[k])
  }

  predicate Indexed(t: Tree) {
    && |t.buckets| == BUCKETS
    && (forall b :: 0 <= b < BUCKETS ==> BucketOk(t.nodes, t.buckets[b], b))
    && (forall i, j :: 0 <= i < j < |t.nodes| ==> t.nodes[i].hash != t.nodes[j].hash)
    && (forall i :: 0 <= i < |t.nodes| ==> t.nodes[i].hash == CalcHash(t.nodes[i].path))
  }

  /** The index finds every node by the hash of its path, and nothing else. */
  lemma {:induction false} FindExact(t: Tree, hash: nat)
    requires Indexed(t)
    ensures match Find(t, hash)
            case Some(id) => id < |t.nodes| && t.nodes[id].hash == hash
            case None => forall id :: 0 <= id < |t.nodes| ==> t.nodes[id].hash != hash
    ensures forall id :: 0 <= id < |t.nodes| && t.nodes[id].hash == hash ==> Find(t, hash) == Some(id)
  {
    assert BucketOk(t.nodes, t.buckets[hash % BUCKETS], hash % BUCKETS);
  }

  // ---------------------------------------------------------------------------------------
  // The tree.

  predicate Root(id: nat) {
    id < ROOTS
  }

  /** What relates a node to its parent. */
  predicate Descends(nodes: seq<Node>, id: nat)
    requires id < |nodes|
  {
    var n := nodes[id];
    if id < ROOTS then n.path == n.name && n.tables == [] && n.kind == SingleInstance
    else
      && n.parent < id
      && id in nodes[n.parent].children
      && IsObject(nodes[n.parent].kind)
      && n.path == nodes[n.parent].path + ("." + (n.name + (if n.kind == MultiInstance then DOT_MARKER else "")))
      && n.tables == nodes[n.parent].tables + (if n.kind == MultiInstance then [id] else [])
  }

  /** Parameters in the order of their creation, then objects in the order of theirs. */
  predicate Listed(nodes: seq<Node>, id: nat)
    requires id < |nodes|
  {
    var c := nodes[id].children;
    && (forall k :: 0 <= k < |c| ==> id < c[k] < |nodes| && c[k] >= ROOTS && nodes[c[k]].parent == id)
    && (forall j, k :: 0 <= j < k < |c| ==> Precedes(nodes, c[j], c[k]))
    && (forall j, k :: 0 <= j < k < |c| && c[j] < |nodes| && c[k] < |nodes| ==> nodes[c[j]].name != nodes[c[k]].name)
  }

  predicate Precedes(nodes: seq<Node>, a: nat, b: nat) {
    && a < |nodes| && b < |nodes|
    && (IsObject(nodes[a].kind) ==> IsObject(nodes[b].kind))
    && (IsObject(nodes[a].kind) == IsObject(nodes[b].kind) ==> a < b)
  }

  predicate WellFormed(t: Tree) {
    && |t.nodes| >= ROOTS
    && (forall id :: 0 <= id < |t.nodes| ==> Descends(t.nodes, id))
    && (forall id :: 0 <= id < |t.nodes| ==> Listed(t.nodes, id))
    && t.nodes[0].name != t.nodes[1].name
  }

  predicate Ok(t: Tree) {
    Indexed(t) && WellFormed(t)
  }

  // ---------------------------------------------------------------------------------------
  // Creating and linking nodes.

  function Created(t: Tree, n: Node): Tree
    requires |t.buckets| == BUCKETS
  {
    var b := n.hash % BUCKETS;
    Tree(t.nodes + [n], t.buckets[b := [|t.nodes|] + t.buckets[b]])
  }

  lemma {:induction false} BucketGrows(nodes: seq<Node>, bucket: seq<nat>, b: nat, n: Node)
    requires BucketOk(nodes, bucket, b)
    ensures BucketOk(nodes + [n], if n.hash % BUCKETS == b then [|nodes|] + bucket else bucket, b)
  {
    var nodes' := nodes + [n];
    var bucket' := if n.hash % BUCKETS == b then [|nodes|] + bucket else bucket;
    forall id | 0 <= id < |nodes'| && nodes'[id].hash % BUCKETS == b ensures id in bucket' {
      if id < |nodes| {
        assert id in bucket;
      } else {
        assert bucket'[0] == id;
      }
    }
  }

  lemma {:induction false} CreatedIndexed(t: Tree, n: Node)
    requires Indexed(t) && Find(t, n.hash).None? && n.hash == CalcHash(n.path)
    ensures Indexed(Created(t, n))
  {
    FindExact(t, n.hash);
    var t' := Created(t, n);
    forall b | 0 <= b < BUCKETS ensures BucketOk(t'.nodes, t'.buckets[b], b) {
      BucketGrows(t.nodes, t.buckets[b], b, n);
    }
  }

  /** Position of the first object in a child list, or its length. */
  function FirstObject(nodes: seq<Node>, children: seq<nat>): (k: nat)
    ensures k <= |children|
    ensures forall j :: 0 <= j < k && children[j] < |nodes| ==> !IsObject(nodes[children[j]].kind)
    ensures k < |children| ==> children[k] < |nodes| && IsObject(nodes[children[k]].kind)
  {
    if children == [] || (children[0] < |nodes| && IsObject(nodes[children[0]].kind)) then 0
    else 1 + FirstObject(nodes, children[1..])
  }

  function Inserted(nodes: seq<Node>, children: seq<nat>, child: nat): seq<nat>
    requires child < |nodes|
  {
    if IsObject(nodes[child].kind) then children + [child]
    else
      var k := FirstObject(nodes, children);
      children[..k] + [child] + children[k..]
  }

  function Linked(nodes: seq<Node>, parent: nat, child: nat): seq<Node>
    requires parent < |nodes| && child < |nodes|
  {
    nodes[parent := nodes[parent].(children := Inserted(nodes, nodes[parent].children, child))]
  }

  function Grown(t: Tree, parent: nat, n: Node): Tree
    requires |t.buckets| == BUCKETS && parent < |t.nodes|
  {
    var t' := Created(t, n);
    t'.(nodes := Linked(t'.nodes, parent, |t.nodes|))
  }

  function Child(nodes: seq<Node>, children: seq<nat>, name: string): (r: Option<nat>)
    ensures match r
            case Some(c) => c in children && c < |nodes| && nodes[c].name == name
            case None => forall k :: 0 <= k < |children| && children[k] < |nodes| ==> nodes[children[k]].name != name
  {
    if children == [] then None
    else if children[0] < |nodes| && nodes[children[0]].name == name then Some(children[0])
    else
      var r := Child(nodes, children[1..], name);
      assert r.None? ==> forall k :: 0 < k < |children| ==> children[k] == children[1..][k - 1];
      r
  }

  /** A parameter created last, put between the parameters and the objects. */
  lemma {:induction false} ParameterInBetween(nodes: seq<Node>, children: seq<nat>, child: nat, at: nat, j: nat, k: nat)
    requires child < |nodes| && (forall i :: 0 <= i < |children| ==> children[i] < child)
    requires forall i, i' :: 0 <= i < i' < |children| ==> Precedes(nodes, children[i], children[i'])
    requires !IsObject(nodes[child].kind) && at == FirstObject(nodes, children) && j < k <= |children|
    ensures var c := children[..at] + [child] + children[at..]; Precedes(nodes, c[j], c[k])
  {
    var c := children[..at] + [child] + children[at..];
    assert c[j] == if j < at then children[j] else if j == at then child else children[j - 1];
    assert c[k] == if k < at then children[k] else if k == at then child else children[k - 1];
    if j == at && at < k - 1 {
      assert Precedes(nodes, children[at], children[k - 1]);
    }
  }

  /** The child list of `parent` after node `child`, created last, has been linked into it. */
  lemma {:induction false} InsertedKeepsOrder(nodes: seq<Node>, children: seq<nat>, child: nat)
    requires child < |nodes| && (forall k :: 0 <= k < |children| ==> children[k] < child)
    requires forall j, k :: 0 <= j < k < |children| ==> Precedes(nodes, children[j], children[k])
    ensures var c := Inserted(nodes, children, child);
            && (forall j, k :: 0 <= j < k < |c| ==> Precedes(nodes, c[j], c[k]))
            && (forall x :: x in c ==> x in children || x == child)
  {
    var c := Inserted(nodes, children, child);
    forall j, k | 0 <= j < k < |c| ensures Precedes(nodes, c[j], c[k]) {
      if IsObject(nodes[child].kind) {
        assert j < |children| && c[j] == children[j];
      } else {
        ParameterInBetween(nodes, children, child, FirstObject(nodes, children), j, k);
      }
    }
  }

  predicate FreshName(nodes: seq<Node>, children: seq<nat>, name: string) {
    forall k :: 0 <= k < |children| && children[k] < |nodes| ==> nodes[children[k]].name != name
  }

  lemma {:induction false} InsertedKeepsNames(nodes: seq<Node>, children: seq<nat>, child: nat)
    requires child < |nodes| && FreshName(nodes, children, nodes[child].name)
    requires forall k :: 0 <= k < |children| ==> children[k] < |nodes|
    requires forall j, k :: 0 <= j < k < |children| ==> nodes[children[j]].name != nodes[children[k]].name
    ensures var c := Inserted(nodes, children, child);
            && (forall k :: 0 <= k < |c| ==> c[k] < |nodes|)
            && (forall j, k :: 0 <= j < k < |c| ==> nodes[c[j]].name != nodes[c[k]].name)
  {
  }

  /** A node that may be created below `parent`. */
  predicate Addable(t: Tree, parent: nat, n: Node) {
    && parent < |t.nodes| && IsObject(t.nodes[parent].kind)
    && n.parent == parent && n.children == []
    && n.path == t.nodes[parent].path + ("." + (n.name + (if n.kind == MultiInstance then DOT_MARKER else "")))
    && n.tables == t.nodes[parent].tables + (if n.kind == MultiInstance then [|t.nodes|] else [])
    && n.hash == CalcHash(n.path)
    && FreshName(t.nodes, t.nodes[parent].children, n.name)
  }

  /** The nodes of `nodes` are still there in `more`, except perhaps for their child lists. */
  predicate Kept(nodes: seq<Node>, more: seq<Node>) {
    && |nodes| <= |more|
    && (forall id :: 0 <= id < |nodes| ==> nodes[id] == more[id].(children := nodes[id].children))
  }

  lemma {:induction false} PrecedesStays(nodes: seq<Node>, more: seq<Node>, c: seq<nat>)
    requires Kept(nodes, more)
    requires forall j, k :: 0 <= j < k < |c| ==> Precedes(nodes, c[j], c[k])
    ensures forall j, k :: 0 <= j < k < |c| ==> Precedes(more, c[j], c[k])
  {
    forall j, k | 0 <= j < k < |c| ensures Precedes(more, c[j], c[k]) {
      assert Precedes(nodes, c[j], c[k]);
    }
  }

  lemma {:induction false} ListedStays(nodes: seq<Node>, more: seq<Node>, id: nat)
    requires Kept(nodes, more) && id < |nodes| && Listed(nodes, id) && more[id].children == nodes[id].children
    ensures Listed(more, id)
  {
    PrecedesStays(nodes, more, nodes[id].children);
  }

  lemma {:induction false} ListedParent(nodes: seq<Node>, more: seq<Node>, parent: nat, child: nat)
    requires Kept(nodes, more) && parent < child && ROOTS <= child && child + 1 == |nodes|
    requires Listed(nodes, parent) && nodes[child].parent == parent
    requires forall k :: 0 <= k < |nodes[parent].children| ==> nodes[parent].children[k] < child
    requires FreshName(nodes, nodes[parent].children, nodes[child].name)
    requires more[parent].children == Inserted(nodes, nodes[parent].children, child)
    ensures Listed(more, parent)
  {
    var c := nodes[parent].children;
    InsertedKeepsOrder(nodes, c, child);
    InsertedKeepsNames(nodes, c, child);
    var c' := more[parent].children;
    PrecedesStays(nodes, more, c');
    forall k | 0 <= k < |c'|
      ensures parent < c'[k] < |more| && c'[k] >= ROOTS && more[c'[k]].parent == parent
    {
      assert c'[k] in c || c'[k] == child;
    }
  }

  lemma {:induction false} GrownKeeps(t: Tree, parent: nat, n: Node)
    requires |t.buckets| == BUCKETS && parent < |t.nodes|
    ensures Kept(t.nodes, t.nodes + [n]) && Kept(t.nodes + [n], Grown(t, parent, n).nodes)
    ensures Kept(t.nodes, Grown(t, parent, n).nodes)
  {
  }

  lemma {:induction false} ListedAfter(t: Tree, parent: nat, n: Node, id: nat)
    requires WellFormed(t) && |t.buckets| == BUCKETS && Addable(t, parent, n) && id <= |t.nodes|
    ensures Listed(Grown(t, parent, n).nodes, id)
  {
    var nodes, more := t.nodes + [n], Grown(t, parent, n).nodes;
    GrownKeeps(t, parent, n);
    if id < |t.nodes| {
      assert Listed(t.nodes, id);
      ListedStays(t.nodes, nodes, id);
      if id == parent {
        ListedParent(nodes, more, parent, |t.nodes|);
      } else {
        ListedStays(nodes, more, id);
      }
    }
  }

  lemma {:induction false} DescendsAfter(t: Tree, parent: nat, n: Node, id: nat)
    requires WellFormed(t) && |t.buckets| == BUCKETS && Addable(t, parent, n) && id <= |t.nodes|
    ensures Descends(Grown(t, parent, n).nodes, id)
  {
    var nodes := t.nodes + [n];
    assert Listed(t.nodes, parent);
    InsertedContains(nodes, t.nodes[parent].children, |t.nodes|);
    if id < |t.nodes| {
      assert Descends(t.nodes, id);
    }
  }

  lemma {:induction false} InsertedContains(nodes: seq<Node>, children: seq<nat>, child: nat)
    requires child < |nodes|
    ensures child in Inserted(nodes, children, child)
    ensures forall x :: x in children ==> x in Inserted(nodes, children, child)
  {
    var c := Inserted(nodes, children, child);
    if IsObject(nodes[child].kind) {
      assert c[|children|] == child;
    } else {
      var at := FirstObject(nodes, children);
      assert c[at] == child;
      assert children == children[..at] + children[at..];
    }
  }

  /** Creating and linking a node keeps the index and the tree in agreement. */
  lemma {:induction false} GrownOk(t: Tree, parent: nat, n: Node)
    requires Ok(t) && Addable(t, parent, n) && Find(t, n.hash).None?
    ensures Ok(Grown(t, parent, n))
  {
    var t' := Grown(t, parent, n);
    CreatedIndexed(t, n);
    LinkedIndexed(Created(t, n), parent, |t.nodes|);
    forall id | 0 <= id < |t'.nodes| ensures Listed(t'.nodes, id) {
      ListedAfter(t, parent, n, id);
    }
    forall id | 0 <= id < |t'.nodes| ensures Descends(t'.nodes, id) {
      DescendsAfter(t, parent, n, id);
    }
  }

  lemma {:induction false} LinkedIndexed(t: Tree, parent: nat, child: nat)
    requires Indexed(t) && parent < |t.nodes| && child < |t.nodes|
    ensures Indexed(t.(nodes := Linked(t.nodes, parent, child)))
  {
    var nodes := Linked(t.nodes, parent, child);
    forall b | 0 <= b < BUCKETS ensures BucketOk(nodes, t.buckets[b], b) {
      assert BucketOk(t.nodes, t.buckets[b], b);
    }
  }
}
