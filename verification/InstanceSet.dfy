/** Which nodes lie below which, and which rows and instances an operation on an instance concerns. */
module InstanceSet {
  import opened Options
  import opened InstanceNumbers
  import opened SchemaTree
  import opened SchemaLookup
  import opened DatabaseKeys

  /** An object instance: the tables on its path and its number in each. */
  datatype Instance = Instance(tables: seq<nat>, numbers: seq<nat>)

  /** `a` is `x` or lies above it. */
  predicate Above(t: Tree, a: nat, x: nat)
    decreases x
  {
    a == x || (ROOTS <= x < |t.nodes| && t.nodes[x].parent < x && Above(t, a, t.nodes[x].parent))
  }

  /** `x` is one of the nodes `cs` or lies below one. */
  predicate Beneath(t: Tree, cs: seq<nat>, x: nat) {
    exists j :: 0 <= j < |cs| && Above(t, cs[j], x)
  }

  lemma {:induction false} AboveIsSmaller(t: Tree, a: nat, x: nat)
    requires WellFormed(t) && x < |t.nodes| && Above(t, a, x)
    ensures a <= x
    decreases x
  {
    if a != x {
      assert Descends(t.nodes, x);
      AboveIsSmaller(t, a, t.nodes[x].parent);
    }
  }

  lemma {:induction false} AboveTransitive(t: Tree, a: nat, b: nat, x: nat)
    requires WellFormed(t) && x < |t.nodes| && Above(t, a, b) && Above(t, b, x)
    ensures Above(t, a, x)
    decreases x
  {
    if b != x {
      assert Descends(t.nodes, x);
      AboveTransitive(t, a, b, t.nodes[x].parent);
    }
  }

  /** What lies above a node forms a chain. */
  lemma {:induction false} AboveIsChain(t: Tree, a: nat, b: nat, x: nat)
    requires WellFormed(t) && x < |t.nodes| && Above(t, a, x) && Above(t, b, x)
    ensures Above(t, a, b) || Above(t, b, a)
    decreases x
  {
    if a != x && b != x {
      assert Descends(t.nodes, x);
      AboveIsChain(t, a, b, t.nodes[x].parent);
    }
  }

  lemma {:induction false} AboveKeepsTables(t: Tree, a: nat, x: nat)
    requires WellFormed(t) && x < |t.nodes| && Above(t, a, x)
    ensures a < |t.nodes| && t.nodes[a].tables <= t.nodes[x].tables
    decreases x
  {
    if a != x {
      assert Descends(t.nodes, x);
      AboveKeepsTables(t, a, t.nodes[x].parent);
    }
  }

  /** The tables of a node lie above it, and their own tables are those up to them. */
  lemma {:induction false} TableIsAbove(t: Tree, x: nat, k: nat)
    requires WellFormed(t) && x < |t.nodes| && k < |t.nodes[x].tables|
    ensures var s := t.nodes[x].tables[k];
            && ROOTS <= s < |t.nodes| && Above(t, s, x) && t.nodes[s].kind == MultiInstance
            && t.nodes[s].tables == t.nodes[x].tables[..k + 1]
    decreases x
  {
    assert Descends(t.nodes, x);
    if k < |t.nodes[x].tables| - 1 || t.nodes[x].kind != MultiInstance {
      var p := t.nodes[x].parent;
      TableIsAbove(t, p, k);
      assert t.nodes[p].tables <= t.nodes[x].tables;
    } else {
      assert t.nodes[x].tables[..k + 1] == t.nodes[x].tables;
    }
  }

  predicate ChildrenOf(t: Tree, node: nat, cs: seq<nat>) {
    && node < |t.nodes|
    && forall j :: 0 <= j < |cs| ==> ROOTS <= cs[j] < |t.nodes| && t.nodes[cs[j]].parent == node
  }

  /** A node lies below at most one child of another. */
  lemma {:induction false} OneChildAbove(t: Tree, a: nat, b: nat, x: nat)
    requires WellFormed(t) && x < |t.nodes| && Above(t, a, x) && Above(t, b, x)
    requires ROOTS <= a < |t.nodes| && ROOTS <= b < |t.nodes| && t.nodes[a].parent == t.nodes[b].parent
    ensures a == b
  {
    AboveIsChain(t, a, b, x);
    assert Descends(t.nodes, a) && Descends(t.nodes, b);
    if a != b {
      if Above(t, a, b) {
        AboveIsSmaller(t, a, t.nodes[b].parent);
      } else {
        AboveIsSmaller(t, b, t.nodes[a].parent);
      }
    }
  }

  /** What lies below a node lies below one of its children. */
  lemma {:induction false} BelowThroughChild(t: Tree, node: nat, x: nat)
    requires WellFormed(t) && node < |t.nodes| && x < |t.nodes|
    ensures Above(t, node, x) <==> node == x || Beneath(t, t.nodes[node].children, x)
    decreases x
  {
    assert Descends(t.nodes, x);
    var cs := t.nodes[node].children;
    if node != x && Above(t, node, x) {
      var p := t.nodes[x].parent;
      BelowThroughChild(t, node, p);
      if node == p {
        var j :| 0 <= j < |cs| && cs[j] == x;
        assert Above(t, cs[j], x);
      } else {
        var j :| 0 <= j < |cs| && Above(t, cs[j], p);
        assert Above(t, cs[j], x);
      }
    }
    if Beneath(t, cs, x) {
      var j :| 0 <= j < |cs| && Above(t, cs[j], x);
      assert Listed(t.nodes, node);
      assert Descends(t.nodes, cs[j]);
      assert Above(t, node, cs[j]);
      AboveTransitive(t, node, cs[j], x);
    }
  }

  // ---------------------------------------------------------------------------------------
  // Entries of the instance set.

  predicate ValidInstance(t: Tree, e: Instance) {
    && |e.tables| == |e.numbers| > 0
    && var last := e.tables[|e.tables| - 1];
       last < |t.nodes| && t.nodes[last].kind == MultiInstance && t.nodes[last].tables == e.tables
  }

  predicate ValidSet(t: Tree, instances: set<Instance>) {
    forall e :: e in instances ==> ValidInstance(t, e)
  }

  /** `e` is the instance with these tables and numbers or lies within it. */
  predicate Within(e: Instance, tables: seq<nat>, numbers: seq<nat>) {
    tables <= e.tables && numbers <= e.numbers
  }

  predicate Present(instances: set<Instance>, tables: seq<nat>, numbers: seq<nat>) {
    exists e :: e in instances && Within(e, tables, numbers)
  }

  /** The node `q` with the numbers `l` lies below `cs` within the instance `inst`, and the instances in
      between exist. */
  predicate Hit(t: Tree, instances: set<Instance>, cs: seq<nat>, inst: Instance, q: nat, l: seq<nat>) {
    && q < |t.nodes| && Beneath(t, cs, q)
    && |l| == |t.nodes[q].tables| && inst.numbers <= l
    && (|l| == |inst.numbers| || Present(instances, t.nodes[q].tables, l))
  }

  /** The node and the numbers of a row, if it is one of a node of the data model. */
  datatype Decoded = Decoded(node: nat, numbers: seq<nat>)

  function Decode(t: Tree, key: Key): Option<Decoded>
    requires Indexed(t)
  {
    var id, numbers := Find(t, key.hash), ParseInstances(key.instances);
    if id.None? || numbers.None? || InstanceText(numbers.value) != key.instances then None
    else Some(Decoded(id.value, numbers.value))
  }

  function RowKey(t: Tree, q: nat, l: seq<nat>): Key
    requires q < |t.nodes|
  {
    Key(t.nodes[q].hash, InstanceText(l))
  }

  lemma {:induction false} DecodeExact(t: Tree, key: Key, q: nat, l: seq<nat>)
    requires Indexed(t) && q < |t.nodes|
    ensures Decode(t, key) == Some(Decoded(q, l)) <==> key == RowKey(t, q, l)
  {
    FindExact(t, key.hash);
    FindExact(t, t.nodes[q].hash);
    InstancesRoundTrip(l);
  }

  /** The kinds whose values the data model itself writes and deletes. */
  predicate Stored(k: Kind) {
    k == DbReadWrite || k == DbReadOnly || k == DbReadOnlyAuto || k == DbReadWriteAuto || k == DbSecure
  }

  // ---------------------------------------------------------------------------------------
  // What an operation concerns.

  datatype Scope =
    | Subtree(instances: set<Instance>, cs: seq<nat>, inst: Instance)                  // everything hit below `cs`
    | Entries(instances: set<Instance>, table: nat, inst: Instance, done: set<nat>)    // the instances `done` of a table
    | One(node: nat, numbers: seq<nat>)

  predicate InScope(t: Tree, s: Scope, q: nat, l: seq<nat>) {
    match s
    case Subtree(instances, cs, inst) => Hit(t, instances, cs, inst, q, l)
    case Entries(instances, table, inst, done) =>
      Hit(t, instances, [table], inst, q, l) && |l| > |inst.numbers| && l[|inst.numbers|] in done
    case One(node, numbers) => q == node && l == numbers
  }

  predicate RowInScope(t: Tree, s: Scope, key: Key)
    requires Indexed(t)
  {
    match Decode(t, key)
    case None => false
    case Some(d) => d.node < |t.nodes| && Stored(t.nodes[d.node].kind) && InScope(t, s, d.node, d.numbers)
  }

  predicate InstanceInScope(t: Tree, s: Scope, x: Instance) {
    ValidInstance(t, x) && InScope(t, s, x.tables[|x.tables| - 1], x.numbers)
  }

  /** What is stored: the rows, the instances, and the deletions to notify. */
  datatype World = World(rows: Database, instances: set<Instance>, deletions: seq<Instance>)

  predicate Distinct(xs: seq<Instance>) {
    forall j, k :: 0 <= j < k < |xs| ==> xs[j] != xs[k]
  }

  ghost predicate RowsDeleted(t: Tree, rows: Database, rows': Database, s: Scope)
    requires Indexed(t)
  {
    && (forall key :: key in rows' <==> key in rows && !RowInScope(t, s, key))
    && (forall key :: key in rows' ==> rows'[key] == rows[key])
  }

  ghost predicate InstancesDeleted(t: Tree, instances: set<Instance>, instances': set<Instance>, s: Scope) {
    forall e :: e in instances' <==> e in instances && !InstanceInScope(t, s, e)
  }

  ghost predicate DeletionsNoted(t: Tree, deletions: seq<Instance>, deletions': seq<Instance>, s: Scope) {
    && deletions <= deletions'
    && Distinct(deletions'[|deletions|..])
    && (forall x :: x in deletions'[|deletions|..] <==> InstanceInScope(t, s, x))
  }

  /** From `w` to `v` exactly what is in scope is deleted, and every instance in scope is notified once. */
  ghost predicate Deleted(t: Tree, w: World, v: World, s: Scope)
    requires Indexed(t)
  {
    && RowsDeleted(t, w.rows, v.rows, s)
    && InstancesDeleted(t, w.instances, v.instances, s)
    && DeletionsNoted(t, w.deletions, v.deletions, s)
  }

  /** The two scopes have nothing in common and make up the third. */
  ghost predicate Parts(t: Tree, a: Scope, b: Scope, s: Scope) {
    && (forall q: nat, l: seq<nat> :: InScope(t, s, q, l) <==> InScope(t, a, q, l) || InScope(t, b, q, l))
    && (forall q: nat, l: seq<nat> :: !(InScope(t, a, q, l) && InScope(t, b, q, l)))
  }

  lemma {:induction false} DeletionsAppend(a: seq<Instance>, b: seq<Instance>, c: seq<Instance>)
    requires a <= b <= c && Distinct(b[|a|..]) && Distinct(c[|b|..])
    requires forall x :: !(x in b[|a|..] && x in c[|b|..])
    ensures Distinct(c[|a|..]) && forall x :: x in c[|a|..] <==> x in b[|a|..] || x in c[|b|..]
  {
    var first, second := b[|a|..], c[|b|..];
    assert c[|a|..] == first + second;
    forall j, k | 0 <= j < k < |first + second| ensures (first + second)[j] != (first + second)[k] {
      if j < |first| <= k {
        assert first[j] in first && second[k - |first|] in second;
      }
    }
  }

  lemma {:induction false} RowsTogether(t: Tree, w: Database, v: Database, u: Database, a: Scope, b: Scope, s: Scope)
    requires Indexed(t) && RowsDeleted(t, w, v, a) && RowsDeleted(t, v, u, b) && Parts(t, a, b, s)
    ensures RowsDeleted(t, w, u, s)
  {
    forall key ensures RowInScope(t, s, key) <==> RowInScope(t, a, key) || RowInScope(t, b, key) {
    }
  }

  lemma {:induction false} InstancesTogether(t: Tree, w: set<Instance>, v: set<Instance>, u: set<Instance>, a: Scope, b: Scope, s: Scope)
    requires InstancesDeleted(t, w, v, a) && InstancesDeleted(t, v, u, b) && Parts(t, a, b, s)
    ensures InstancesDeleted(t, w, u, s)
  {
  }

  lemma {:induction false} DeletionsTogether(t: Tree, w: seq<Instance>, v: seq<Instance>, u: seq<Instance>, a: Scope, b: Scope, s: Scope)
    requires DeletionsNoted(t, w, v, a) && DeletionsNoted(t, v, u, b) && Parts(t, a, b, s)
    ensures DeletionsNoted(t, w, u, s)
  {
    DeletionsAppend(w, v, u);
  }

  /** Deleting one part, then the other, deletes the whole. */
  lemma {:induction false} DeletedTogether(t: Tree, w: World, v: World, u: World, a: Scope, b: Scope, s: Scope)
    requires Indexed(t) && Deleted(t, w, v, a) && Deleted(t, v, u, b) && Parts(t, a, b, s)
    ensures Deleted(t, w, u, s)
  {
    RowsTogether(t, w.rows, v.rows, u.rows, a, b, s);
    InstancesTogether(t, w.instances, v.instances, u.instances, a, b, s);
    DeletionsTogether(t, w.deletions, v.deletions, u.deletions, a, b, s);
  }

  lemma {:induction false} SameScope(t: Tree, w: World, v: World, a: Scope, s: Scope)
    requires Indexed(t) && Deleted(t, w, v, a)
    requires forall q: nat, l: seq<nat> :: InScope(t, s, q, l) <==> InScope(t, a, q, l)
    ensures Deleted(t, w, v, s)
  {
    forall key ensures RowInScope(t, s, key) <==> RowInScope(t, a, key) {
    }
    forall x ensures InstanceInScope(t, s, x) <==> InstanceInScope(t, a, x) {
    }
  }

  lemma {:induction false} NothingDeleted(t: Tree, w: World, s: Scope)
    requires Indexed(t)
    requires forall q: nat, l: seq<nat> :: InScope(t, s, q, l) ==> q < |t.nodes| && !Stored(t.nodes[q].kind) && t.nodes[q].kind != MultiInstance
    ensures Deleted(t, w, w, s)
  {
  }
}
