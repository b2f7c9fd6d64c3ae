/** When a path can be registered, and what registering it adds to the tree. */
module SchemaCreation {
  import opened Options
  import opened InstanceNumbers
  import opened SchemaPaths
  import opened SchemaTree
  import opened SchemaRegistration
  import opened SchemaLookup

  /** The nodes that exist already along the steps, one after the other from `parent`. */
  function Trail(t: Tree, parent: nat, steps: seq<Step>): (r: seq<nat>)
    requires parent < |t.nodes|
    ensures |r| <= |steps| && forall i :: 0 <= i < |r| ==> r[i] < |t.nodes|
    decreases |steps|
  {
    if steps == [] then []
    else
      match Child(t.nodes, t.nodes[parent].children, steps[0].name)
      case None => []
      case Some(child) => [child] + Trail(t, child, steps[1..])
  }

  /** Where the steps leave the tree. */
  function Split(t: Tree, parent: nat, steps: seq<Step>): (r: nat)
    requires parent < |t.nodes|
    ensures r < |t.nodes|
  {
    var trail := Trail(t, parent, steps);
    if trail == [] then parent else trail[|trail| - 1]
  }

  /** The nodes that exist are what the steps ask for, and the last one may exist if it does. */
  predicate Accepted(t: Tree, parent: nat, steps: seq<Step>, flags: Flags)
    requires parent < |t.nodes|
  {
    var trail := Trail(t, parent, steps);
    && (trail != [] && |trail| == |steps| ==> flags.mayExist)
    && forall i :: 0 <= i < |trail| ==>
         Meets(t.nodes[trail[i]].kind, steps[i].kind, flags.anyLastKind && i == |steps| - 1)
  }

  function PathTo(path: string, steps: seq<Step>, i: nat): string
    requires i < |steps|
  {
    path + PathText(steps[..i + 1])
  }

  /** The node of missing step i can be created: a table only at the end, under a hash that no node has,
      be it an old one or one created for an earlier step. */
  predicate Creatable(t: Tree, path: string, steps: seq<Step>, i: nat)
    requires i < |steps|
  {
    && (steps[i].kind == MultiInstance ==> i == |steps| - 1)
    && (forall id :: 0 <= id < |t.nodes| ==> t.nodes[id].hash != CalcHash(PathTo(path, steps, i)))
    && (forall j :: 0 <= j < i ==> CalcHash(PathTo(path, steps, j)) != CalcHash(PathTo(path, steps, i)))
  }

  /** The node created for missing step i. */
  function Added(t: Tree, parent: nat, steps: seq<Step>, i: nat, count: nat): Node
    requires parent < |t.nodes| && i < |steps|
  {
    var p, id := t.nodes[parent], |t.nodes| + i;
    Node(steps[i].name, steps[i].kind, PathTo(p.path, steps, i), CalcHash(PathTo(p.path, steps, i)),
         if steps[i].kind == MultiInstance then p.tables + [id] else p.tables,
         if i + 1 < count then [id + 1] else [],
         if i == 0 then parent else id - 1)
  }

  /** `nodes` are those of `t`, and below `parent` one node for each of the first `count` missing steps, each the only
      child of the one before. No other child list has changed. */
  predicate Adds(t: Tree, parent: nat, steps: seq<Step>, count: nat, nodes: seq<Node>)
    requires parent < |t.nodes| && count <= |steps|
  {
    && |nodes| == |t.nodes| + count
    && (forall i :: 0 <= i < count ==> nodes[|t.nodes| + i] == Added(t, parent, steps, i, count))
    && (forall id :: 0 <= id < |t.nodes| && (count == 0 || id != parent) ==> nodes[id] == t.nodes[id])
    && (count > 0 ==>
          nodes[parent] == t.nodes[parent].(children := Inserted(nodes, t.nodes[parent].children, |t.nodes|)))
  }

  // ---------------------------------------------------------------------------------------
  // Along the nodes that exist.

  lemma {:induction false} TablesTell(t: Tree, parent: nat, child: nat, asked: Kind)
    requires Ok(t) && parent < |t.nodes| && child in t.nodes[parent].children
    ensures child < |t.nodes|
    ensures |t.nodes[child].tables| == |t.nodes[parent].tables| + (if t.nodes[child].kind == MultiInstance then 1 else 0)
    ensures t.nodes[child].kind == asked ==>
              t.nodes[child].tables == if asked == MultiInstance then t.nodes[parent].tables + [child] else t.nodes[parent].tables
    ensures t.nodes[child].kind == asked ==>
              t.nodes[child].path == t.nodes[parent].path + ("." + (t.nodes[child].name + (if asked == MultiInstance then DOT_MARKER else "")))
  {
    ChildDescends(t, parent, child);
    assert t.nodes[parent].tables + [] == t.nodes[parent].tables;
  }

  lemma {:induction false} TrailStep(t: Tree, parent: nat, steps: seq<Step>, flags: Flags, child: nat)
    requires parent < |t.nodes| && steps != []
    requires Child(t.nodes, t.nodes[parent].children, steps[0].name) == Some(child)
    ensures Trail(t, parent, steps) == [child] + Trail(t, child, steps[1..])
    ensures Split(t, parent, steps) == Split(t, child, steps[1..])
    ensures steps[|Trail(t, parent, steps)|..] == steps[1..][|Trail(t, child, steps[1..])|..]
    ensures Accepted(t, parent, steps, flags) <==>
              && Meets(t.nodes[child].kind, steps[0].kind, flags.anyLastKind && |steps| == 1)
              && (if |steps| == 1 then flags.mayExist else Accepted(t, child, steps[1..], flags))
  {
    var trail, rest := Trail(t, parent, steps), Trail(t, child, steps[1..]);
    forall i | 0 < i < |trail| ensures trail[i] == rest[i - 1] && steps[i] == steps[1..][i - 1] {
    }
    if Accepted(t, parent, steps, flags) {
      forall i | 0 <= i < |rest|
        ensures Meets(t.nodes[rest[i]].kind, steps[1..][i].kind, flags.anyLastKind && i == |steps| - 2)
      {
        assert rest[i] == trail[i + 1];
      }
    }
  }

  /** A step to a node that exists. */
  lemma {:induction false} OldStep(t: Tree, parent: nat, child: nat, path: string, tables: seq<nat>, steps: seq<Step>, flags: Flags)
    requires Ok(t) && Stands(t, parent, path, tables, steps) && steps != []
    requires Child(t.nodes, t.nodes[parent].children, steps[0].name) == Some(child)
    ensures var r, kind := Walk(t, parent, path, tables, steps, flags), t.nodes[child].kind;
            if |steps| == 1 then
              r == Registered(t, if flags.mayExist && Meets(kind, steps[0].kind, flags.anyLastKind) then Some(child) else None)
            else if kind != steps[0].kind then r == Registered(t, None)
            else r == Walk(t, child, t.nodes[child].path, t.nodes[child].tables, steps[1..], flags)
  {
    TablesTell(t, parent, child, steps[0].kind);
    assert Walk(t, parent, path, tables, steps, flags) == WalkOld(t, child, path, tables, steps, flags);
    if |steps| == 1 {
      var tables' := if steps[0].kind == MultiInstance then tables + [child] else tables;
      assert Walk(t, child, path + Extension(steps[0]), tables', steps[1..], flags) == Registered(t, Some(child));
    } else if t.nodes[child].kind == steps[0].kind {
      assert path + Extension(steps[0]) == t.nodes[child].path;
    }
  }

  lemma {:induction false} StandsBelow(t: Tree, parent: nat, child: nat, steps: seq<Step>)
    requires Ok(t) && parent < |t.nodes| && Passable(steps) && |steps| > 1
    requires child < |t.nodes| && t.nodes[child].kind == steps[0].kind
    ensures Passable(steps[1..]) && Stands(t, child, t.nodes[child].path, t.nodes[child].tables, steps[1..])
  {
  }

  /** What becomes of a walk at the end of the nodes that exist. */
  predicate FollowsTo(t: Tree, r: Registered, parent: nat, steps: seq<Step>, flags: Flags)
    requires parent < |t.nodes| && |t.buckets| == BUCKETS
  {
    var trail, split := Trail(t, parent, steps), Split(t, parent, steps);
    if !Accepted(t, parent, steps, flags) then r == Registered(t, None)
    else if |trail| == |steps| then r == Registered(t, Some(split))
    else
      && IsObject(t.nodes[split].kind)
      && Child(t.nodes, t.nodes[split].children, steps[|trail|].name).None?
      && r == Walk(t, split, t.nodes[split].path, t.nodes[split].tables, steps[|trail|..], flags)
  }

  lemma {:induction false} FollowsFurther(t: Tree, r: Registered, parent: nat, child: nat, steps: seq<Step>, flags: Flags)
    requires parent < |t.nodes| && |t.buckets| == BUCKETS && |steps| > 1
    requires Child(t.nodes, t.nodes[parent].children, steps[0].name) == Some(child)
    requires t.nodes[child].kind == steps[0].kind && FollowsTo(t, r, child, steps[1..], flags)
    ensures FollowsTo(t, r, parent, steps, flags)
  {
    TrailStep(t, parent, steps, flags, child);
    var rest := Trail(t, child, steps[1..]);
    if |rest| < |steps| - 1 {
      assert steps[1..][|rest|] == steps[|rest| + 1];
    }
  }

  /** As far as nodes exist, the walk follows them if they are accepted and fails, adding nothing, if they are not. */
  lemma {:induction false} WalkFollows(t: Tree, parent: nat, path: string, tables: seq<nat>, steps: seq<Step>, flags: Flags)
    requires Ok(t) && Passable(steps) && Stands(t, parent, path, tables, steps)
    ensures FollowsTo(t, Walk(t, parent, path, tables, steps, flags), parent, steps, flags)
    decreases |steps|
  {
    if steps != [] {
      match Child(t.nodes, t.nodes[parent].children, steps[0].name)
      case None => assert steps[0..] == steps;
      case Some(child) =>
        OldStep(t, parent, child, path, tables, steps, flags);
        if |steps| > 1 && t.nodes[child].kind == steps[0].kind {
          StandsBelow(t, parent, child, steps);
          WalkFollows(t, child, t.nodes[child].path, t.nodes[child].tables, steps[1..], flags);
          FollowsFurther(t, Walk(t, parent, path, tables, steps, flags), parent, child, steps, flags);
        } else {
          TrailStep(t, parent, steps, flags, child);
        }
    }
  }

  // ---------------------------------------------------------------------------------------
  // Below them.

  lemma {:induction false} PathToLater(path: string, steps: seq<Step>, i: nat)
    requires 0 < i < |steps|
    ensures PathTo(path + Extension(steps[0]), steps[1..], i - 1) == PathTo(path, steps, i)
  {
    assert steps[..i + 1][1..] == steps[1..][..i];
    assert (path + Extension(steps[0])) + PathText(steps[1..][..i]) == path + (Extension(steps[0]) + PathText(steps[1..][..i]));
  }

  lemma {:induction false} PathToFirst(path: string, steps: seq<Step>)
    requires steps != []
    ensures PathTo(path, steps, 0) == path + Extension(steps[0])
  {
    assert steps[..1] == [steps[0]] && steps[..1][1..] == [];
    assert PathText(steps[..1]) == Extension(steps[0]) + "";
  }

  /** A step is missing at `parent`, or there is none. */
  predicate Missing(t: Tree, parent: nat, steps: seq<Step>)
    requires parent < |t.nodes|
  {
    steps != [] ==> IsObject(t.nodes[parent].kind) && Child(t.nodes, t.nodes[parent].children, steps[0].name).None?
  }

  function FirstNode(t: Tree, parent: nat, steps: seq<Step>): Node
    requires parent < |t.nodes| && steps != []
  {
    NewNode(t, parent, t.nodes[parent].path, t.nodes[parent].tables, steps[0])
  }

  lemma {:induction false} FirstCreatable(t: Tree, parent: nat, steps: seq<Step>)
    requires Indexed(t) && parent < |t.nodes| && steps != []
    ensures Creatable(t, t.nodes[parent].path, steps, 0) <==>
              (steps[0].kind == MultiInstance ==> |steps| == 1) && Find(t, FirstNode(t, parent, steps).hash).None?
  {
    PathToFirst(t.nodes[parent].path, steps);
    FindExact(t, FirstNode(t, parent, steps).hash);
  }

  /** The tree after the first missing node has been created is the old one with that node. */
  lemma {:induction false} GrownMeans(t: Tree, parent: nat, n: Node)
    requires |t.buckets| == BUCKETS && parent < |t.nodes|
    ensures var nodes := Grown(t, parent, n).nodes;
            && |nodes| == |t.nodes| + 1 && nodes[|t.nodes|] == n
            && (forall id :: 0 <= id < |t.nodes| && id != parent ==> nodes[id] == t.nodes[id])
            && nodes[parent] == t.nodes[parent].(children := Inserted(t.nodes + [n], t.nodes[parent].children, |t.nodes|))
  {
  }

  lemma {:induction false} LaterCreatable(t: Tree, t': Tree, parent: nat, steps: seq<Step>, i: nat)
    requires parent < |t.nodes| && 0 < i < |steps| && |t'.nodes| == |t.nodes| + 1
    requires forall id :: 0 <= id < |t.nodes| ==> t'.nodes[id].hash == t.nodes[id].hash
    requires t'.nodes[|t.nodes|].hash == FirstNode(t, parent, steps).hash
    ensures var path := t.nodes[parent].path;
            Creatable(t', path + Extension(steps[0]), steps[1..], i - 1) <==> Creatable(t, path, steps, i)
  {
    var path := t.nodes[parent].path;
    var path' := path + Extension(steps[0]);
    PathToFirst(path, steps);
    forall j | 0 < j <= i ensures PathTo(path', steps[1..], j - 1) == PathTo(path, steps, j) {
      PathToLater(path, steps, j);
    }
    assert steps[1..][i - 1] == steps[i];
    if Creatable(t', path', steps[1..], i - 1) {
      assert t'.nodes[|t.nodes|].hash != CalcHash(PathTo(path', steps[1..], i - 1));
      forall j | 0 <= j < i ensures CalcHash(PathTo(path, steps, j)) != CalcHash(PathTo(path, steps, i)) {
        if j > 0 {
          assert CalcHash(PathTo(path', steps[1..], j - 1)) != CalcHash(PathTo(path', steps[1..], i - 1));
        }
      }
    }
    if Creatable(t, path, steps, i) {
      assert CalcHash(PathTo(path, steps, 0)) != CalcHash(PathTo(path, steps, i));
      forall j | 0 <= j < i - 1
        ensures CalcHash(PathTo(path', steps[1..], j)) != CalcHash(PathTo(path', steps[1..], i - 1))
      {
        assert PathTo(path', steps[1..], j) == PathTo(path, steps, j + 1);
      }
    }
  }

  lemma {:induction false} FirstObjectSame(nodes: seq<Node>, more: seq<Node>, children: seq<nat>)
    requires |nodes| <= |more| && forall id :: 0 <= id < |nodes| ==> more[id].kind == nodes[id].kind
    requires forall k :: 0 <= k < |children| ==> children[k] < |nodes|
    ensures FirstObject(nodes, children) == FirstObject(more, children)
  {
    if children != [] {
      FirstObjectSame(nodes, more, children[1..]);
    }
  }

  lemma {:induction false} AddedLater(t: Tree, t': Tree, parent: nat, steps: seq<Step>, i: nat, count: nat)
    requires parent < |t.nodes| && 0 < i < |steps| && |t'.nodes| == |t.nodes| + 1 && count > 0
    requires t'.nodes[|t.nodes|].path == t.nodes[parent].path + Extension(steps[0])
    requires t'.nodes[|t.nodes|].tables == t.nodes[parent].tables
    ensures Added(t', |t.nodes|, steps[1..], i - 1, count - 1) == Added(t, parent, steps, i, count)
  {
    PathToLater(t.nodes[parent].path, steps, i);
  }

  lemma {:induction false} InsertedSame(nodes: seq<Node>, more: seq<Node>, children: seq<nat>, child: nat)
    requires |nodes| <= |more| && forall id :: 0 <= id < |nodes| ==> more[id].kind == nodes[id].kind
    requires child < |nodes| && forall k :: 0 <= k < |children| ==> children[k] < |nodes|
    ensures Inserted(nodes, children, child) == Inserted(more, children, child)
  {
    FirstObjectSame(nodes, more, children);
  }

  /** `t'` is `t` with the node of the first missing step. */
  predicate FirstAdded(t: Tree, t': Tree, parent: nat, steps: seq<Step>)
    requires parent < |t.nodes| && steps != []
  {
    var n := FirstNode(t, parent, steps);
    && |t'.nodes| == |t.nodes| + 1 && t'.nodes[|t.nodes|] == n
    && (forall id :: 0 <= id < |t.nodes| && id != parent ==> t'.nodes[id] == t.nodes[id])
    && t'.nodes[parent] == t.nodes[parent].(children := Inserted(t.nodes + [n], t.nodes[parent].children, |t.nodes|))
  }

  lemma {:induction false} AddsParent(t: Tree, t': Tree, parent: nat, steps: seq<Step>, count: nat, nodes: seq<Node>)
    requires Ok(t) && parent < |t.nodes| && steps != [] && FirstAdded(t, t', parent, steps)
    requires 0 < count <= |steps| && Adds(t', |t.nodes|, steps[1..], count - 1, nodes)
    ensures nodes[parent] == t.nodes[parent].(children := Inserted(nodes, t.nodes[parent].children, |t.nodes|))
  {
    assert Listed(t.nodes, parent);
    assert nodes[parent] == t'.nodes[parent];
    InsertedSame(t.nodes + [FirstNode(t, parent, steps)], nodes, t.nodes[parent].children, |t.nodes|);
  }

  lemma {:induction false} AddsFirst(t: Tree, t': Tree, parent: nat, steps: seq<Step>, count: nat, nodes: seq<Node>)
    requires parent < |t.nodes| && steps != [] && FirstAdded(t, t', parent, steps)
    requires 0 < count <= |steps| && Adds(t', |t.nodes|, steps[1..], count - 1, nodes)
    ensures nodes[|t.nodes|] == Added(t, parent, steps, 0, count)
  {
    PathToFirst(t.nodes[parent].path, steps);
    assert count > 1 && IsObject(nodes[|t.nodes| + 1].kind) ==> Inserted(nodes, [], |t.nodes| + 1) == [|t.nodes| + 1];
    assert count > 1 ==> Inserted(nodes, [], |t.nodes| + 1) == [|t.nodes| + 1];
  }

  lemma {:induction false} AddsLater(t: Tree, t': Tree, parent: nat, steps: seq<Step>, count: nat, nodes: seq<Node>)
    requires Ok(t) && parent < |t.nodes| && steps != [] && FirstAdded(t, t', parent, steps)
    requires 0 < count <= |steps| && Adds(t', |t.nodes|, steps[1..], count - 1, nodes)
    requires steps[0].kind == MultiInstance ==> |steps| == 1
    ensures Adds(t, parent, steps, count, nodes)
  {
    AddsParent(t, t', parent, steps, count, nodes);
    AddsFirst(t, t', parent, steps, count, nodes);
    forall i | 0 < i < count ensures nodes[|t.nodes| + i] == Added(t, parent, steps, i, count) {
      AddedLater(t, t', parent, steps, i, count);
      assert nodes[|t'.nodes| + (i - 1)] == Added(t', |t.nodes|, steps[1..], i - 1, count - 1);
    }
  }

  /** The nodes of the first `count` missing steps can be created, and that of the next one cannot. */
  predicate UpTo(t: Tree, path: string, steps: seq<Step>, count: nat)
    requires count <= |steps|
  {
    && (forall i :: 0 <= i < count ==> Creatable(t, path, steps, i))
    && (count < |steps| ==> !Creatable(t, path, steps, count))
  }

  /** What a walk below the nodes that exist makes of the tree. */
  predicate GrowsTo(t: Tree, r: Registered, parent: nat, steps: seq<Step>)
    requires parent < |t.nodes|
  {
    var count := |r.tree.nodes| - |t.nodes|;
    && 0 <= count <= |steps| && Adds(t, parent, steps, count, r.tree.nodes) && UpTo(t, t.nodes[parent].path, steps, count)
    && r.node == if count < |steps| then None else if count == 0 then Some(parent) else Some(|t.nodes| + count - 1)
  }

  lemma {:induction false} AddedCreatable(t: Tree, t': Tree, parent: nat, steps: seq<Step>, i: nat)
    requires parent < |t.nodes| && 0 < i < |steps| && FirstAdded(t, t', parent, steps)
    ensures Creatable(t', t'.nodes[|t.nodes|].path, steps[1..], i - 1) <==> Creatable(t, t.nodes[parent].path, steps, i)
  {
    LaterCreatable(t, t', parent, steps, i);
  }

  lemma {:induction false} FirstCreatables(t: Tree, t': Tree, parent: nat, steps: seq<Step>, count: nat)
    requires parent < |t.nodes| && steps != [] && FirstAdded(t, t', parent, steps) && 0 < count <= |steps|
    requires Creatable(t, t.nodes[parent].path, steps, 0) && UpTo(t', t'.nodes[|t.nodes|].path, steps[1..], count - 1)
    ensures UpTo(t, t.nodes[parent].path, steps, count)
  {
    forall i | 0 <= i < count ensures Creatable(t, t.nodes[parent].path, steps, i) {
      if i > 0 {
        assert Creatable(t', t'.nodes[|t.nodes|].path, steps[1..], i - 1);
        AddedCreatable(t, t', parent, steps, i);
      }
    }
    if count < |steps| {
      AddedCreatable(t, t', parent, steps, count);
    }
  }

  lemma {:induction false} GrowsFurther(t: Tree, t': Tree, r: Registered, parent: nat, steps: seq<Step>)
    requires Ok(t) && parent < |t.nodes| && steps != [] && FirstAdded(t, t', parent, steps)
    requires Creatable(t, t.nodes[parent].path, steps, 0) && GrowsTo(t', r, |t.nodes|, steps[1..])
    ensures GrowsTo(t, r, parent, steps)
  {
    AddsLater(t, t', parent, steps, |r.tree.nodes| - |t.nodes|, r.tree.nodes);
    FirstCreatables(t, t', parent, steps, |r.tree.nodes| - |t.nodes|);
  }

  /** The nodes of the missing steps are created in order, up to the first that cannot be. */
  lemma {:induction false} WalkGrows(t: Tree, parent: nat, steps: seq<Step>, flags: Flags)
    requires Ok(t) && Passable(steps) && parent < |t.nodes| && Missing(t, parent, steps)
    ensures GrowsTo(t, Walk(t, parent, t.nodes[parent].path, t.nodes[parent].tables, steps, flags), parent, steps)
    decreases |steps|
  {
    if steps != [] {
      FirstCreatable(t, parent, steps);
      if Creatable(t, t.nodes[parent].path, steps, 0) {
        var n := FirstNode(t, parent, steps);
        var t' := Grown(t, parent, n);
        NewIsAddable(t, parent, t.nodes[parent].path, t.nodes[parent].tables, steps);
        GrownOk(t, parent, n);
        GrownMeans(t, parent, n);
        assert Passable(steps[1..]);
        WalkGrows(t', |t.nodes|, steps[1..], flags);
        GrowsFurther(t, t', Walk(t', |t.nodes|, n.path, n.tables, steps[1..], flags), parent, steps);
      }
    }
  }

  // ---------------------------------------------------------------------------------------
  // Whole walks.

  /** What registering the steps makes of the tree. If a node that exists is not what is asked for, nothing is added.
      Otherwise the nodes of the missing steps are added in order, with the names and kinds asked for and below one
      another, up to the first that cannot be created, and nothing else changes. The registration succeeds exactly if
      the nodes that exist are what is asked for and all others could be created. */
  lemma {:induction false} WalkAdds(t: Tree, parent: nat, path: string, tables: seq<nat>, steps: seq<Step>, flags: Flags)
    requires Ok(t) && Passable(steps) && Stands(t, parent, path, tables, steps)
    ensures var r, split := Walk(t, parent, path, tables, steps, flags), Split(t, parent, steps);
            var rest := steps[|Trail(t, parent, steps)|..];
            if Accepted(t, parent, steps, flags) then GrowsTo(t, r, split, rest) else r == Registered(t, None)
    ensures var r, split := Walk(t, parent, path, tables, steps, flags), Split(t, parent, steps);
            var rest := steps[|Trail(t, parent, steps)|..];
            r.node.Some? <==>
              && Accepted(t, parent, steps, flags)
              && forall i :: 0 <= i < |rest| ==> Creatable(t, t.nodes[split].path, rest, i)
  {
    var trail, split := Trail(t, parent, steps), Split(t, parent, steps);
    WalkFollows(t, parent, path, tables, steps, flags);
    if Accepted(t, parent, steps, flags) {
      assert Passable(steps[|trail|..]);
      WalkGrows(t, split, steps[|trail|..], flags);
    }
  }

  // ---------------------------------------------------------------------------------------
  // Paths.

  /** A path asks for its names: for tables where it has markers, for objects elsewhere, and for `kind` at its end. */
  lemma {:induction false} StepsAsked(root: string, segs: seq<Segment>, kind: Kind)
    requires segs != [] ==> (kind == MultiInstance <==> segs[|segs| - 1].table)
    ensures var steps := RootedSteps(root, segs, kind);
            && |steps| == |segs| && Passable(steps)
            && forall i :: 0 <= i < |segs| ==>
                 steps[i] == Step(segs[i].name, if i == |segs| - 1 then kind else if segs[i].table then MultiInstance else SingleInstance)
  {
  }

  lemma {:induction false} SegmentsWalk(t: Tree, root: nat, path: string, segs: seq<Segment>, kind: Kind, flags: Flags)
    requires Ok(t) && Root(root) && StartsWithName(path)
    requires Assemble([], Pieces(path)) == [Segment(t.nodes[root].name, false)] + segs
    ensures Register(t, path, kind, flags) ==
              if |segs| >= MAX_SEGMENTS then Registered(t, None)
              else Walk(t, root, t.nodes[root].path, t.nodes[root].tables, RootedSteps(t.nodes[root].name, segs, kind), flags)
  {
    assert Descends(t.nodes, root);
  }

  lemma {:induction false} RegisterWalks(t: Tree, root: nat, segs: seq<Segment>, kind: Kind, flags: Flags)
    requires Ok(t) && Root(root) && GoodName(t.nodes[root].name) && GoodNames(segs)
    ensures var name := t.nodes[root].name;
            && StartsWithName(name + SchemaText(segs))
            && Register(t, name + SchemaText(segs), kind, flags) ==
                 if |segs| >= MAX_SEGMENTS then Registered(t, None)
                 else Walk(t, root, t.nodes[root].path, t.nodes[root].tables, RootedSteps(name, segs, kind), flags)
  {
    var name := t.nodes[root].name;
    SegmentsBack(name, segs, Markers(Tables(segs)));
    NameBegins(name, segs);
    SegmentsWalk(t, root, name + SchemaText(segs), segs, kind, flags);
  }

  /** A path of at most 32 segments can be registered exactly if the nodes that exist along it are of the kinds asked
      for, the last one is missing or may exist, and every missing one can be created: it is no table except at the end,
      and its hash is that of no other node. Then its missing nodes are added, and nothing else. */
  lemma {:induction false} RegisterAdds(t: Tree, root: nat, segs: seq<Segment>, kind: Kind, flags: Flags)
    requires Ok(t) && Root(root) && GoodName(t.nodes[root].name) && GoodNames(segs)
    requires segs != [] ==> (kind == MultiInstance <==> segs[|segs| - 1].table)
    ensures var name := t.nodes[root].name;
            var steps := RootedSteps(name, segs, kind);
            var split, rest := Split(t, root, steps), steps[|Trail(t, root, steps)|..];
            && StartsWithName(name + SchemaText(segs))
            && var r := Register(t, name + SchemaText(segs), kind, flags);
               && (r.node.Some? <==>
                     && |segs| < MAX_SEGMENTS && Accepted(t, root, steps, flags)
                     && forall i :: 0 <= i < |rest| ==> Creatable(t, t.nodes[split].path, rest, i))
               && if |segs| < MAX_SEGMENTS && Accepted(t, root, steps, flags) then GrowsTo(t, r, split, rest)
                  else r == Registered(t, None)
  {
    var name := t.nodes[root].name;
    RegisterWalks(t, root, segs, kind, flags);
    StepsAsked(name, segs, kind);
    assert Descends(t.nodes, root);
    WalkAdds(t, root, t.nodes[root].path, t.nodes[root].tables, RootedSteps(name, segs, kind), flags);
  }

  /** A path that begins with neither root, or has too many segments or none, is not registered. */
  lemma {:induction false} ElsewhereRefused(t: Tree, path: string, kind: Kind, flags: Flags)
    requires Ok(t) && StartsWithName(path)
    requires var segs := Assemble([], Pieces(path));
             |segs| > MAX_SEGMENTS || segs == [] || segs[0].name !in {t.nodes[0].name, t.nodes[1].name}
    ensures Register(t, path, kind, flags) == Registered(t, None)
  {
  }
}
