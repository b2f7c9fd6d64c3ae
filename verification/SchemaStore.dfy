/** The supported data model as the agent holds it: nodes, and the map from hashes to them. */
module SchemaStore {
  import opened Options
  import opened SchemaPaths
  import opened SchemaTree
  import opened SchemaRegistration
  import opened SchemaLookup

  // ---------------------------------------------------------------------------------------
  // The two root nodes.

  function RootNode(name: string): Node {
    Node(name, SingleInstance, name, CalcHash(name), [], [], 0)
  }

  function EmptyTree(): Tree {
    Tree([], seq(BUCKETS, _ => []))
  }

  function InitialTree(): Tree {
    Created(Created(EmptyTree(), RootNode("Device")), RootNode("Internal"))
  }

  lemma {:induction false} XorParity(a: nat, b: nat)
    ensures Xor(a, b) % 2 == (a + b) % 2
  {
  }

  lemma {:induction false} WordParity(x: nat)
    ensures x % 0x1_0000_0000 % 2 == x % 2
  {
    var q, r := x / 0x1_0000_0000, x % 0x1_0000_0000;
    assert x == 2 * (q * 0x8000_0000) + r;
  }

  lemma {:induction false} OddMultiple(h: nat)
    ensures h * FNV_PRIME % 2 == h % 2
  {
    assert h * FNV_PRIME == 2 * (0x80_00C9 * h) + h;
  }

  lemma {:induction false} OddFactor(h: nat)
    ensures h * FNV_PRIME % 0x1_0000_0000 % 2 == h % 2
  {
    OddMultiple(h);
    WordParity(h * FNV_PRIME);
  }

  lemma {:induction false} AddParity(c: char, hash: nat)
    ensures AddToHash(c, hash) % 2 == (hash + c as nat) % 2
  {
    OddFactor(hash);
    MixParity(hash * FNV_PRIME % 0x1_0000_0000, c as nat, hash);
  }

  lemma {:induction false} MixParity(x: nat, c: nat, hash: nat)
    requires x % 2 == hash % 2
    ensures Xor(x, c) % 2 == (hash + c) % 2
  {
    XorParity(x, c);
  }

  function CharParity(s: string): nat {
    if s == "" then 0 else (s[0] as nat + CharParity(s[1..])) % 2
  }

  lemma {:induction false} SumParity(mixed: nat, hash: nat, c: nat, rest: nat)
    requires mixed % 2 == (hash + c) % 2
    ensures (mixed + rest) % 2 == (hash + (c + rest) % 2) % 2
  {
  }

  /** The lowest bit of a hash is the parity of the lowest bits of the characters. */
  lemma {:induction false} HashParity(hash: nat, s: string)
    ensures HashFrom(hash, s) % 2 == (hash + CharParity(s)) % 2
    decreases |s|, 1
  {
    if s != "" {
      HashStep(hash, s, AddToHash(s[0], hash));
    }
  }

  lemma {:induction false} HashStep(hash: nat, s: string, mixed: nat)
    requires s != "" && mixed == AddToHash(s[0], hash)
    ensures HashFrom(hash, s) % 2 == (hash + CharParity(s)) % 2
    decreases |s|, 0
  {
    AddParity(s[0], hash);
    HashParity(mixed, s[1..]);
    SumParity(mixed, hash, s[0] as nat, CharParity(s[1..]));
  }

  lemma {:induction false} DeviceParity()
    ensures CharParity("Device") == 0
  {
    assert CharParity("e") == 1 && CharParity("ce") == 0 && CharParity("ice") == 1;
    assert CharParity("vice") == 1 && CharParity("evice") == 0;
  }

  lemma {:induction false} InternalParity()
    ensures CharParity("Internal") == 1
  {
    assert CharParity("l") == 0 && CharParity("al") == 1 && CharParity("nal") == 1 && CharParity("rnal") == 1;
    assert CharParity("ernal") == 0 && CharParity("ternal") == 0 && CharParity("nternal") == 0;
  }

  /** The hashes of the two roots differ. */
  lemma {:induction false} RootsApart()
    ensures CalcHash("Device") != CalcHash("Internal")
  {
    DeviceParity();
    InternalParity();
    HashParity(OFFSET_BASIS, "Device");
    HashParity(OFFSET_BASIS, "Internal");
  }

  lemma {:induction false} OneThenTwo(a: Node, b: Node)
    requires a.hash == CalcHash(a.path) && b.hash == CalcHash(b.path) && a.hash != b.hash
    ensures Find(EmptyTree(), a.hash).None?
    ensures Indexed(Created(EmptyTree(), a)) && Find(Created(EmptyTree(), a), b.hash).None?
    ensures Indexed(Created(Created(EmptyTree(), a), b))
  {
    assert Indexed(EmptyTree());
    CreatedIndexed(EmptyTree(), a);
    FindExact(Created(EmptyTree(), a), b.hash);
    CreatedIndexed(Created(EmptyTree(), a), b);
  }

  lemma {:induction false} InitialOk()
    ensures Ok(InitialTree())
  {
    RootsApart();
    OneThenTwo(RootNode("Device"), RootNode("Internal"));
    TwoRoots(InitialTree());
  }

  lemma {:induction false} TwoRoots(t: Tree)
    requires t.nodes == [RootNode("Device"), RootNode("Internal")]
    ensures WellFormed(t)
  {
    RootIsListed(t.nodes, 0);
    RootIsListed(t.nodes, 1);
    assert "Device"[0] != "Internal"[0];
  }

  lemma {:induction false} RootIsListed(nodes: seq<Node>, id: nat)
    requires id < ROOTS <= |nodes| && nodes[id] == RootNode(nodes[id].name)
    ensures Descends(nodes, id) && Listed(nodes, id)
  {
  }

  /** Whatever has been registered, and whatever of it has failed, index and tree agree; so every node is
      found by the hash of its path and by no other. */
  lemma {:induction false} EveryRunIsOk(requests: seq<Request>)
    requires forall i :: 0 <= i < |requests| ==> StartsWithName(requests[i].path)
    ensures Ok(InitialTree())
    ensures var t := RegisterAll(InitialTree(), requests);
            Ok(t) && forall id :: 0 <= id < |t.nodes| ==> Find(t, t.nodes[id].hash) == Some(id)
  {
    InitialOk();
    var t := RegisterAll(InitialTree(), requests);
    forall id | 0 <= id < |t.nodes| ensures Find(t, t.nodes[id].hash) == Some(id) {
      FindExact(t, t.nodes[id].hash);
    }
  }

  /** The order of a node is the number of instances in its path. */
  lemma {:induction false} OrderIsMarkers(t: Tree, id: nat)
    requires WellFormed(t) && GoodTree(t) && id < |t.nodes|
    ensures CountMarkers(t.nodes[id].path) == |t.nodes[id].tables|
  {
    var root, segs := t.nodes[RootOf(t, id)].name, Chain(t, id);
    var zeros: seq<nat> := seq(Tables(segs), _ => 0);
    ChainPath(t, id);
    ChainGood(t, id);
    ChainTables(t, id);
    InstantiateSchema(segs, zeros);
    InstantiatePlain(root, SchemaText(segs), zeros);
    InstantiateNeeds(root + SchemaText(segs), zeros);
  }

  // ---------------------------------------------------------------------------------------
  // The object.

  class Schema {
    var nodes: seq<Node>
    const nodeMap: array<seq<nat>>

    ghost predicate Valid()
      reads this, nodeMap
    {
      nodeMap.Length == BUCKETS && Ok(Value())
    }

    ghost function Value(): Tree
      reads this, nodeMap
    {
      Tree(nodes, nodeMap[..])
    }

    constructor ()
      ensures Valid() && fresh(nodeMap) && Value() == InitialTree()
    {
      nodeMap := new seq<nat>[BUCKETS](_ => []);
      nodes := [];
      new;
      assert Value() == EmptyTree();
      InitialOk();
      RootsApart();
      OneThenTwo(RootNode("Device"), RootNode("Internal"));
      AddRoot(RootNode("Device"));
      AddRoot(RootNode("Internal"));
    }

    method AddRoot(n: Node)
      requires nodeMap.Length == BUCKETS && Find(Value(), n.hash).None?
      modifies this`nodes, nodeMap
      ensures Value() == Created(old(Value()), n)
    {
      var id := CreateNode(n);
    }

    /** Searches the bucket of a hash. */
    method FindNodeFromHash(hash: nat) returns (r: Option<nat>)
      requires nodeMap.Length == BUCKETS
      ensures r == Find(Value(), hash)
    {
      var rest: seq<nat> := nodeMap[hash % BUCKETS];
      while rest != [] && !(rest[0] < |nodes| && nodes[rest[0]].hash == hash)
        invariant FindIn(nodes, rest, hash) == Find(Value(), hash)
      {
        rest := rest[1..];
      }
      return if rest == [] then None else Some(rest[0]);
    }

    /** Adds a node to the index unless its hash is taken. */
    method CreateNode(n: Node) returns (r: Option<nat>)
      requires nodeMap.Length == BUCKETS
      modifies this`nodes, nodeMap
      ensures if Find(old(Value()), n.hash).Some? then r == None && Value() == old(Value())
              else r == Some(old(|nodes|)) && Value() == Created(old(Value()), n)
    {
      var taken := FindNodeFromHash(n.hash);
      if taken.Some? {
        return None;
      }
      r := Some(|nodes|);
      var b := n.hash % BUCKETS;
      nodeMap[b] := [|nodes|] + nodeMap[b];
      nodes := nodes + [n];
    }

    method FindMatchingChild(parent: nat, name: string) returns (r: Option<nat>)
      requires parent < |nodes|
      ensures r == Child(nodes, nodes[parent].children, name)
    {
      var rest: seq<nat> := nodes[parent].children;
      while rest != [] && !(rest[0] < |nodes| && nodes[rest[0]].name == name)
        invariant Child(nodes, rest, name) == Child(nodes, nodes[parent].children, name)
      {
        rest := rest[1..];
      }
      return if rest == [] then None else Some(rest[0]);
    }

    /** Position of the first object among the children. */
    method FindLinkToFirstObject(children: seq<nat>) returns (k: nat)
      ensures k == FirstObject(nodes, children)
    {
      k := 0;
      while k < |children| && !(children[k] < |nodes| && IsObject(nodes[children[k]].kind))
        invariant k <= |children| && k + FirstObject(nodes, children[k..]) == FirstObject(nodes, children)
      {
        assert children[k..][1..] == children[k + 1..];
        k := k + 1;
      }
    }

    /** Links a node into the child list of its parent, parameters before objects. */
    method LinkChild(parent: nat, child: nat)
      requires parent < |nodes| && child < |nodes|
      modifies this`nodes
      ensures nodes == Linked(old(nodes), parent, child)
    {
      var c := nodes[parent].children;
      if IsObject(nodes[child].kind) {
        c := c + [child];
      } else {
        var k := FindLinkToFirstObject(c);
        c := c[..k] + [child] + c[k..];
      }
      nodes := nodes[parent := nodes[parent].(children := c)];
    }

    /** Registers a path: walks along its segments, creating the nodes that are missing. */
    method AddSchemaPath(path: string, kind: Kind, flags: Flags) returns (r: Option<nat>)
      requires Valid() && StartsWithName(path)
      modifies this`nodes, nodeMap
      ensures Valid()
      ensures Registered(Value(), r) == Register(old(Value()), path, kind, flags)
    {
      RegisterKeeps(Value(), path, kind, flags);
      var segs := Assemble([], Pieces(path));
      if |segs| == 0 || |segs| > MAX_SEGMENTS {
        return None;
      }
      var steps := StepsOf(segs, kind)[1..];
      if segs[0].name == nodes[0].name {
        r := WalkDown(0, steps, flags);
      } else if segs[0].name == nodes[1].name {
        r := WalkDown(1, steps, flags);
      } else {
        r := None;
      }
    }

    method WalkDown(root: nat, steps: seq<Step>, flags: Flags) returns (r: Option<nat>)
      requires nodeMap.Length == BUCKETS && root < |nodes|
      modifies this`nodes, nodeMap
      ensures Registered(Value(), r) == Walk(old(Value()), root, old(nodes[root].path), [], steps, flags)
    {
      ghost var goal := Walk(Value(), root, nodes[root].path, [], steps, flags);
      var parent: nat, path, tables: seq<nat>, i := root, nodes[root].path, [], 0;
      assert steps[0..] == steps;
      while i < |steps|
        invariant i <= |steps| && parent < |nodes| && nodeMap.Length == BUCKETS
        invariant Walk(Value(), parent, path, tables, steps[i..], flags) == goal
      {
        assert steps[i..][1..] == steps[i + 1..];
        var child: Option<nat> := FindMatchingChild(parent, steps[i].name);
        if child.None? {
          child, path, tables := EnterNew(parent, path, tables, steps[i], i == |steps| - 1, flags, steps[i..]);
        } else {
          child, path, tables := EnterOld(child.value, path, tables, steps[i], i == |steps| - 1, flags, steps[i..]);
        }
        if child.None? {
          return None;
        }
        parent := child.value;
        i := i + 1;
      }
      assert steps[i..] == [];
      return Some(parent);
    }

    /** Creates the node of a segment that is missing, if it may be created. */
    method EnterNew(parent: nat, path: string, tables: seq<nat>, step: Step, last: bool, flags: Flags, ghost steps: seq<Step>)
      returns (child: Option<nat>, path': string, tables': seq<nat>)
      requires nodeMap.Length == BUCKETS && parent < |nodes|
      requires steps != [] && steps[0] == step && last == (|steps| == 1)
      requires Child(nodes, nodes[parent].children, step.name).None?
      modifies this`nodes, nodeMap
      ensures if child.None? then Registered(Value(), None) == WalkNew(old(Value()), parent, path, tables, steps, flags)
              else
                && child.value < |nodes|
                && Walk(Value(), child.value, path', tables', steps[1..], flags) ==
                     WalkNew(old(Value()), parent, path, tables, steps, flags)
    {
      path', tables' := path, tables;
      if step.kind == MultiInstance && !last {
        return None, path, tables;
      }
      var n := Node(step.name, step.kind, path + Extension(step), CalcHash(path + Extension(step)),
                    if step.kind == MultiInstance then tables + [|nodes|] else tables, [], parent);
      assert n == NewNode(Value(), parent, path, tables, step);
      child := CreateNode(n);
      if child.None? {
        return;
      }
      LinkChild(parent, child.value);
      path', tables' := n.path, n.tables;
    }

    /** Checks a node that exists against the segment that leads to it. */
    method EnterOld(found: nat, path: string, tables: seq<nat>, step: Step, last: bool, flags: Flags,
                    ghost steps: seq<Step>)
      returns (child: Option<nat>, path': string, tables': seq<nat>)
      requires nodeMap.Length == BUCKETS && found < |nodes|
      requires steps != [] && steps[0] == step && last == (|steps| == 1)
      ensures if child.None? then Registered(Value(), None) == WalkOld(Value(), found, path, tables, steps, flags)
              else
                && child.value < |nodes|
                && Walk(Value(), child.value, path', tables', steps[1..], flags) ==
                     WalkOld(Value(), found, path, tables, steps, flags)
    {
      path' := path + Extension(step);
      tables' := if step.kind == MultiInstance then tables + [found] else tables;
      if last && !flags.mayExist {
        return None, path', tables';
      }
      if !(last && flags.anyLastKind) && nodes[found].kind != step.kind {
        return None, path', tables';
      }
      if |nodes[found].tables| != |tables'| {
        return None, path', tables';
      }
      child := Some(found);
    }

    /** The node of an instantiated path, trying a table without its instance second. */
    method GetNodeFromPath(path: string) returns (r: Lookup)
      requires Valid()
      ensures r == GetNode(Value(), path)
    {
      var hashed := CalcHashFromPath(path);
      if hashed.None? {
        return Missing;
      }
      var hash, numbers := hashed.value.hash, hashed.value.numbers;
      var id := FindNodeFromHash(hash);
      if id.None? {
        hash := AddToHash('.', hash);
        hash := AddMarker(hash);
        MarkerHash(hashed.value.hash);
        id := FindNodeFromHash(hash);
        if id.None? {
          return Missing;
        }
      }
      var order := |nodes[id.value].tables|;
      if |numbers| == order {
        return Found(id.value, numbers, true);
      }
      if nodes[id.value].kind != MultiInstance || |numbers| != order - 1 {
        return Missing;
      }
      return Found(id.value, numbers, false);
    }
  }

  lemma {:induction false} MarkerHash(hash: nat)
    ensures HashFrom(AddToHash('.', hash), MARKER) == HashFrom(hash, DOT_MARKER)
  {
    assert DOT_MARKER[1..] == MARKER;
  }
}
