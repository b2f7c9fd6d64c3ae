/** Registration of schema paths: walking down the tree, creating the nodes that are missing. */
module SchemaRegistration {
  import opened Options
  import opened InstanceNumbers
  import opened SchemaPaths
  import opened SchemaTree

  /** A segment of a path to register, with the kind its node has to have. */
  datatype Step = Step(name: string, kind: Kind)

  datatype Flags = Flags(mayExist: bool, anyLastKind: bool)

  datatype Registered = Registered(tree: Tree, node: Option<nat>)

  function Extension(step: Step): string {
    "." + (step.name + (if step.kind == MultiInstance then DOT_MARKER else ""))
  }

  function NewNode(t: Tree, parent: nat, path: string, tables: seq<nat>, step: Step): Node {
    Node(step.name, step.kind, path + Extension(step), CalcHash(path + Extension(step)),
         if step.kind == MultiInstance then tables + [|t.nodes|] else tables, [], parent)
  }

  /** Walks from `parent`, whose path and tables are `path` and `tables`. What has been created stays, even
      if a later step fails. */
  function Walk(t: Tree, parent: nat, path: string, tables: seq<nat>, steps: seq<Step>, flags: Flags): Registered
    requires |t.buckets| == BUCKETS && parent < |t.nodes|
    decreases |steps|
  {
    if steps == [] then Registered(t, Some(parent))
    else
      match Child(t.nodes, t.nodes[parent].children, steps[0].name)
      case None => WalkNew(t, parent, path, tables, steps, flags)
      case Some(child) => WalkOld(t, child, path, tables, steps, flags)
  }

  function WalkNew(t: Tree, parent: nat, path: string, tables: seq<nat>, steps: seq<Step>, flags: Flags): Registered
    requires |t.buckets| == BUCKETS && parent < |t.nodes| && steps != []
    decreases |steps|, 0
  {
    var n := NewNode(t, parent, path, tables, steps[0]);
    if steps[0].kind == MultiInstance && |steps| > 1 then Registered(t, None)
    else if Find(t, n.hash).Some? then Registered(t, None)
    else Walk(Grown(t, parent, n), |t.nodes|, n.path, n.tables, steps[1..], flags)
  }

  function WalkOld(t: Tree, child: nat, path: string, tables: seq<nat>, steps: seq<Step>, flags: Flags): Registered
    requires |t.buckets| == BUCKETS && child < |t.nodes| && steps != []
    decreases |steps|, 0
  {
    var last := |steps| == 1;
    var tables' := if steps[0].kind == MultiInstance then tables + [child] else tables;
    if last && !flags.mayExist then Registered(t, None)
    else if !(last && flags.anyLastKind) && t.nodes[child].kind != steps[0].kind then Registered(t, None)
    else if |t.nodes[child].tables| != |tables'| then Registered(t, None)
    else Walk(t, child, path + Extension(steps[0]), tables', steps[1..], flags)
  }

  /** Only the last step may lead to anything but an object. */
  predicate Passable(steps: seq<Step>) {
    forall i :: 0 <= i < |steps| - 1 ==> IsObject(steps[i].kind)
  }

  /** The walk stands at `parent`. */
  predicate Stands(t: Tree, parent: nat, path: string, tables: seq<nat>, steps: seq<Step>) {
    && parent < |t.nodes|
    && (steps != [] ==>
          IsObject(t.nodes[parent].kind) && path == t.nodes[parent].path && tables == t.nodes[parent].tables)
  }

  lemma {:induction false} NewIsAddable(t: Tree, parent: nat, path: string, tables: seq<nat>, steps: seq<Step>)
    requires Ok(t) && steps != [] && Stands(t, parent, path, tables, steps)
    requires Child(t.nodes, t.nodes[parent].children, steps[0].name).None?
    ensures Addable(t, parent, NewNode(t, parent, path, tables, steps[0]))
  {
    assert tables + [] == tables;
  }

  /** `r` is what a registration may leave: index and tree agree, and nothing of `t` is gone. */
  predicate Keeps(t: Tree, r: Registered) {
    Ok(r.tree) && Kept(t.nodes, r.tree.nodes) && (r.node.Some? ==> r.node.value < |r.tree.nodes|)
  }

  lemma {:induction false} KeepsLater(t: Tree, t': Tree, r: Registered)
    requires Kept(t.nodes, t'.nodes) && Keeps(t', r)
    ensures Keeps(t, r)
  {
    KeptTwice(t.nodes, t'.nodes, r.tree.nodes);
  }

  /** Registration keeps the index and the tree in agreement whether it succeeds or fails, and takes nothing away. */
  lemma {:induction false} WalkKeeps(t: Tree, parent: nat, path: string, tables: seq<nat>, steps: seq<Step>, flags: Flags)
    requires Ok(t) && Passable(steps) && Stands(t, parent, path, tables, steps)
    ensures Keeps(t, Walk(t, parent, path, tables, steps, flags))
    decreases |steps|, 1
  {
    if steps != [] {
      match Child(t.nodes, t.nodes[parent].children, steps[0].name)
      case None => WalkNewKeeps(t, parent, path, tables, steps, flags);
      case Some(child) => WalkOldKeeps(t, parent, child, path, tables, steps, flags);
    }
  }

  lemma {:induction false} WalkNewKeeps(t: Tree, parent: nat, path: string, tables: seq<nat>, steps: seq<Step>, flags: Flags)
    requires Ok(t) && Passable(steps) && Stands(t, parent, path, tables, steps) && steps != []
    requires Child(t.nodes, t.nodes[parent].children, steps[0].name).None?
    ensures Keeps(t, WalkNew(t, parent, path, tables, steps, flags))
    decreases |steps|, 0
  {
    var n := NewNode(t, parent, path, tables, steps[0]);
    if !(steps[0].kind == MultiInstance && |steps| > 1) && Find(t, n.hash).None? {
      var t' := Grown(t, parent, n);
      NewIsAddable(t, parent, path, tables, steps);
      GrownOk(t, parent, n);
      GrownKeeps(t, parent, n);
      assert t'.nodes[|t.nodes|] == n && Passable(steps[1..]);
      WalkKeeps(t', |t.nodes|, n.path, n.tables, steps[1..], flags);
      KeepsLater(t, t', Walk(t', |t.nodes|, n.path, n.tables, steps[1..], flags));
    }
  }

  lemma {:induction false} WalkOldKeeps(t: Tree, parent: nat, child: nat, path: string, tables: seq<nat>, steps: seq<Step>, flags: Flags)
    requires Ok(t) && Passable(steps) && Stands(t, parent, path, tables, steps) && steps != []
    requires Child(t.nodes, t.nodes[parent].children, steps[0].name) == Some(child)
    ensures child < |t.nodes| && Keeps(t, WalkOld(t, child, path, tables, steps, flags))
    decreases |steps|, 0
  {
    ChildDescends(t, parent, child);
    if |steps| == 1 || t.nodes[child].kind == steps[0].kind {
      assert Passable(steps[1..]);
      WalkKeeps(t, child, path + Extension(steps[0]), if steps[0].kind == MultiInstance then tables + [child] else tables,
                steps[1..], flags);
    }
  }

  lemma {:induction false} KeptTwice(a: seq<Node>, b: seq<Node>, c: seq<Node>)
    requires Kept(a, b) && Kept(b, c)
    ensures Kept(a, c)
  {
  }

  lemma {:induction false} ChildDescends(t: Tree, parent: nat, child: nat)
    requires WellFormed(t) && parent < |t.nodes| && child in t.nodes[parent].children
    ensures ROOTS <= child < |t.nodes| && t.nodes[child].parent == parent && Descends(t.nodes, child)
  {
    assert Listed(t.nodes, parent);
  }

  /** The child of a name is the one node created below `parent` under that name. */
  lemma {:induction false} ChildUnique(t: Tree, parent: nat, child: nat)
    requires WellFormed(t) && parent < |t.nodes| && ROOTS <= child < |t.nodes| && t.nodes[child].parent == parent
    ensures Child(t.nodes, t.nodes[parent].children, t.nodes[child].name) == Some(child)
  {
    assert Descends(t.nodes, child);
    assert Listed(t.nodes, parent);
    var c := t.nodes[parent].children;
    var found := Child(t.nodes, c, t.nodes[child].name);
    var k :| 0 <= k < |c| && c[k] == child;
    if found.Some? {
      var j :| 0 <= j < |c| && c[j] == found.value;
    }
  }

  // ---------------------------------------------------------------------------------------
  // Where a registered path leads.

  /** The kind found is the kind asked for. Where any kind will do, the order still tells tables from the rest. */
  predicate Meets(found: Kind, asked: Kind, anyKind: bool) {
    found == asked || (anyKind && found != MultiInstance && asked != MultiInstance)
  }

  /** The steps lead from `parent` to `node` through existing nodes of the right kinds. */
  predicate Leads(t: Tree, parent: nat, steps: seq<Step>, node: nat, anyLastKind: bool)
    requires parent < |t.nodes|
    decreases |steps|
  {
    if steps == [] then parent == node
    else
      match Child(t.nodes, t.nodes[parent].children, steps[0].name)
      case None => false
      case Some(child) =>
        && Meets(t.nodes[child].kind, steps[0].kind, anyLastKind && |steps| == 1)
        && Leads(t, child, steps[1..], node, anyLastKind)
  }

  /** A successful registration leads to its node. */
  lemma {:induction false} WalkLeads(t: Tree, parent: nat, path: string, tables: seq<nat>, steps: seq<Step>, flags: Flags)
    requires Ok(t) && Passable(steps) && Stands(t, parent, path, tables, steps)
    requires Walk(t, parent, path, tables, steps, flags).node.Some?
    ensures var r := Walk(t, parent, path, tables, steps, flags);
            |t.nodes| <= |r.tree.nodes| && Leads(r.tree, parent, steps, r.node.value, flags.anyLastKind)
    decreases |steps|
  {
    WalkKeeps(t, parent, path, tables, steps, flags);
    if steps != [] {
      var r := Walk(t, parent, path, tables, steps, flags);
      assert Passable(steps[1..]);
      match Child(t.nodes, t.nodes[parent].children, steps[0].name)
      case None =>
        var n := NewNode(t, parent, path, tables, steps[0]);
        var t' := Grown(t, parent, n);
        NewIsAddable(t, parent, path, tables, steps);
        GrownOk(t, parent, n);
        assert t'.nodes[|t.nodes|] == n;
        WalkKeeps(t', |t.nodes|, n.path, n.tables, steps[1..], flags);
        WalkLeads(t', |t.nodes|, n.path, n.tables, steps[1..], flags);
        ChildUnique(r.tree, parent, |t.nodes|);
      case Some(child) =>
        ChildDescends(t, parent, child);
        var tables' := if steps[0].kind == MultiInstance then tables + [child] else tables;
        WalkKeeps(t, child, path + Extension(steps[0]), tables', steps[1..], flags);
        WalkLeads(t, child, path + Extension(steps[0]), tables', steps[1..], flags);
        ChildUnique(r.tree, parent, child);
    }
  }

  /** Registering again finds the node if it may exist, and fails if it may not; either way nothing changes. */
  lemma {:induction false} AgainIsNoChange(t: Tree, parent: nat, path: string, tables: seq<nat>, steps: seq<Step>, flags: Flags, node: nat)
    requires Ok(t) && Passable(steps) && Stands(t, parent, path, tables, steps)
    requires Leads(t, parent, steps, node, flags.anyLastKind)
    ensures Walk(t, parent, path, tables, steps, flags) ==
              Registered(t, if steps == [] || flags.mayExist then Some(node) else None)
    decreases |steps|
  {
    if steps != [] {
      var child := Child(t.nodes, t.nodes[parent].children, steps[0].name).value;
      assert Passable(steps[1..]);
      ChildDescends(t, parent, child);
      var tables' := if steps[0].kind == MultiInstance then tables + [child] else tables;
      assert tables + [] == tables;
      AgainIsNoChange(t, child, path + Extension(steps[0]), tables', steps[1..], flags, node);
    }
  }

  function PathText(steps: seq<Step>): string {
    if steps == [] then "" else Extension(steps[0]) + PathText(steps[1..])
  }

  /** The node a path leads to carries that path, whether or not its kind has been checked. */
  lemma {:induction false} LeadsToPath(t: Tree, parent: nat, steps: seq<Step>, node: nat, anyLastKind: bool)
    requires Ok(t) && parent < |t.nodes| && Leads(t, parent, steps, node, anyLastKind)
    ensures node < |t.nodes| && t.nodes[node].path == t.nodes[parent].path + PathText(steps)
    ensures steps != [] ==> Meets(t.nodes[node].kind, steps[|steps| - 1].kind, anyLastKind)
    decreases |steps|
  {
    if steps == [] {
      assert t.nodes[parent].path + "" == t.nodes[parent].path;
    } else {
      var child := Child(t.nodes, t.nodes[parent].children, steps[0].name).value;
      ChildDescends(t, parent, child);
      LeadsToPath(t, child, steps[1..], node, anyLastKind);
      assert (t.nodes[parent].path + Extension(steps[0])) + PathText(steps[1..]) ==
             t.nodes[parent].path + (Extension(steps[0]) + PathText(steps[1..]));
    }
  }

  // ---------------------------------------------------------------------------------------
  // Names.

  predicate GoodTree(t: Tree) {
    forall id :: 0 <= id < |t.nodes| ==> GoodName(t.nodes[id].name)
  }

  predicate GoodSteps(steps: seq<Step>) {
    forall i :: 0 <= i < |steps| ==> GoodName(steps[i].name)
  }

  lemma {:induction false} GrownGood(t: Tree, parent: nat, n: Node)
    requires |t.buckets| == BUCKETS && parent < |t.nodes| && GoodTree(t) && GoodName(n.name)
    ensures GoodTree(Grown(t, parent, n))
  {
    GrownKeeps(t, parent, n);
    var t' := Grown(t, parent, n);
    forall id | 0 <= id < |t'.nodes| ensures GoodName(t'.nodes[id].name) {
      assert t'.nodes[id].name == (t.nodes + [n])[id].name;
    }
  }

  /** Registering a path of names that can be told from dots, numbers and markers adds only such names. */
  lemma {:induction false} WalkGood(t: Tree, parent: nat, path: string, tables: seq<nat>, steps: seq<Step>, flags: Flags)
    requires |t.buckets| == BUCKETS && parent < |t.nodes| && GoodTree(t) && GoodSteps(steps)
    ensures GoodTree(Walk(t, parent, path, tables, steps, flags).tree)
    decreases |steps|
  {
    if steps != [] {
      assert GoodSteps(steps[1..]);
      match Child(t.nodes, t.nodes[parent].children, steps[0].name)
      case None =>
        var n := NewNode(t, parent, path, tables, steps[0]);
        GrownGood(t, parent, n);
        WalkGood(Grown(t, parent, n), |t.nodes|, n.path, n.tables, steps[1..], flags);
      case Some(child) =>
        WalkGood(t, child, path + Extension(steps[0]), if steps[0].kind == MultiInstance then tables + [child] else tables,
                 steps[1..], flags);
    }
  }
}
