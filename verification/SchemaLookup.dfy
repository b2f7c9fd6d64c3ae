/** From paths to nodes and back: registering the text of a path, looking up instantiated paths, and the
    key under which a parameter is stored. */
module SchemaLookup {
  import opened Options
  import opened InstanceNumbers
  import opened SchemaPaths
  import opened SchemaTree
  import opened SchemaRegistration

  // ---------------------------------------------------------------------------------------
  // The segments of a path to register.

  /** The pieces between the dots; empty ones do not count. */
  function Pieces(s: string): (r: seq<string>)
    ensures forall i :: 0 <= i < |r| ==> r[i] != ""
    decreases |s|
  {
    if s == "" then []
    else (if UntilDot(s) == 0 then [] else [s[..UntilDot(s)]]) + Pieces(AfterDot(s))
  }

  /** A piece that stands for an instance. */
  predicate IsInstance(piece: string) {
    piece == MARKER || (piece != "" && IsDigit(piece[0]))
  }

  /** An instance makes a table of the segment before it. */
  function Assemble(segs: seq<Segment>, pieces: seq<string>): seq<Segment>
    decreases |pieces|
  {
    if pieces == [] then segs
    else if IsInstance(pieces[0]) then
      Assemble(if segs == [] then segs else segs[|segs| - 1 := segs[|segs| - 1].(table := true)], pieces[1..])
    else Assemble(segs + [Segment(pieces[0], false)], pieces[1..])
  }

  lemma {:induction false} PiecesPlain(a: string, rest: string)
    requires a != "" && (forall i :: 0 <= i < |a| ==> a[i] != '.') && (rest == "" || rest[0] == '.')
    ensures Pieces(a + rest) == [a] + Pieces(rest)
  {
    UntilDotPlain(a, rest);
    var s := a + rest;
    assert s[..|a|] == a;
    if rest == "" {
      assert s == a && Pieces(rest) == [] && AfterDot(s) == "";
    } else {
      assert s[|a| + 1..] == rest[1..];
      PiecesDot(rest[1..]);
      assert "." + rest[1..] == rest;
    }
  }

  lemma {:induction false} UntilDotPlain(a: string, rest: string)
    requires (forall i :: 0 <= i < |a| ==> a[i] != '.') && (rest == "" || rest[0] == '.')
    ensures UntilDot(a + rest) == |a|
  {
    if a == "" {
      assert a + rest == rest;
    } else {
      assert (a + rest)[1..] == a[1..] + rest;
      UntilDotPlain(a[1..], rest);
    }
  }

  lemma {:induction false} PiecesDot(rest: string)
    ensures Pieces("." + rest) == Pieces(rest)
  {
    assert UntilDot("." + rest) == 0 && ("." + rest)[1..] == rest;
  }

  predicate NoStars(fill: seq<Filler>) {
    forall i :: 0 <= i < |fill| ==> !fill[i].Star?
  }

  lemma {:induction false} FillerIsInstance(f: Filler)
    requires !f.Star?
    ensures IsInstance(FillerText(f)) && forall i :: 0 <= i < |FillerText(f)| ==> FillerText(f)[i] != '.'
  {
    if f.Number? {
      NumberBack(f.n);
    }
  }

  lemma {:induction false} NameFirst(segs: seq<Segment>, name: string, rest: string)
    requires GoodName(name) && (rest == "" || rest[0] == '.')
    ensures Assemble(segs, Pieces("." + (name + rest))) == Assemble(segs + [Segment(name, false)], Pieces(rest))
  {
    PiecesDot(name + rest);
    PiecesPlain(name, rest);
    assert ([name] + Pieces(rest))[1..] == Pieces(rest);
    assert name[0] != '{';
  }

  lemma {:induction false} InstanceFirst(segs: seq<Segment>, piece: string, rest: seq<string>)
    requires segs != [] && IsInstance(piece)
    ensures Assemble(segs, [piece] + rest) == Assemble(segs[|segs| - 1 := segs[|segs| - 1].(table := true)], rest)
  {
    assert ([piece] + rest)[1..] == rest;
  }

  lemma {:induction false} InstancePiece(f: Filler, rest: string)
    requires !f.Star? && (rest == "" || rest[0] == '.')
    ensures IsInstance(FillerText(f)) && Pieces("." + (FillerText(f) + rest)) == [FillerText(f)] + Pieces(rest)
  {
    FillerIsInstance(f);
    PiecesDot(FillerText(f) + rest);
    PiecesPlain(FillerText(f), rest);
  }

  lemma {:induction false} TableFirst(segs: seq<Segment>, name: string, f: Filler, rest: string)
    requires GoodName(name) && !f.Star? && (rest == "" || rest[0] == '.')
    ensures Assemble(segs, Pieces("." + (name + ("." + (FillerText(f) + rest))))) ==
            Assemble(segs + [Segment(name, true)], Pieces(rest))
  {
    TablePieces(name, f, rest);
    AssembleTable(segs, name, FillerText(f), Pieces(rest));
  }

  lemma {:induction false} TablePieces(name: string, f: Filler, rest: string)
    requires GoodName(name) && !f.Star? && (rest == "" || rest[0] == '.')
    ensures IsInstance(FillerText(f)) && !IsInstance(name)
    ensures Pieces("." + (name + ("." + (FillerText(f) + rest)))) == [name] + ([FillerText(f)] + Pieces(rest))
  {
    var tail := "." + (FillerText(f) + rest);
    PiecesDot(name + tail);
    PiecesPlain(name, tail);
    InstancePiece(f, rest);
    assert name[0] != '{';
  }

  /** A name with an instance behind it is a table. */
  lemma {:induction false} AssembleTable(segs: seq<Segment>, name: string, piece: string, more: seq<string>)
    requires !IsInstance(name) && IsInstance(piece)
    ensures Assemble(segs, [name] + ([piece] + more)) == Assemble(segs + [Segment(name, true)], more)
  {
    var named := segs + [Segment(name, false)];
    assert ([name] + ([piece] + more))[1..] == [piece] + more;
    InstanceFirst(named, piece, more);
    assert named[|named| - 1 := named[|named| - 1].(table := true)] == segs + [Segment(name, true)];
  }

  function Later(segs: seq<Segment>, fill: seq<Filler>): seq<Filler>
    requires segs != [] && |fill| == Tables(segs)
  {
    if segs[0].table then fill[1..] else fill
  }

  lemma {:induction false} AssembleFirst(segs: seq<Segment>, more: seq<Segment>, fill: seq<Filler>)
    requires more != [] && GoodName(more[0].name) && |fill| == Tables(more) && NoStars(fill)
    ensures Assemble(segs, Pieces(Text(more, fill))) ==
            Assemble(segs + [more[0]], Pieces(Text(more[1..], Later(more, fill))))
  {
    var rest := Text(more[1..], Later(more, fill));
    TextStart(more[1..], Later(more, fill));
    assert more[0] == Segment(more[0].name, more[0].table);
    if more[0].table {
      TableFirst(segs, more[0].name, fill[0], rest);
    } else {
      NameFirst(segs, more[0].name, rest);
    }
  }

  /** Splitting the text of segments gives the segments back. */
  lemma {:induction false} AssembleText(segs: seq<Segment>, more: seq<Segment>, fill: seq<Filler>)
    requires GoodNames(more) && |fill| == Tables(more) && NoStars(fill)
    ensures Assemble(segs, Pieces(Text(more, fill))) == segs + more
    decreases |more|
  {
    if more == [] {
      assert segs + more == segs && Pieces("") == [];
    } else {
      var segs', more', fill' := segs + [more[0]], more[1..], Later(more, fill);
      assert segs' + more' == segs + more;
      assert Assemble(segs', Pieces(Text(more', fill'))) == segs' + more' by {
        AssembleText(segs', more', fill');
      }
      AssembleFirst(segs, more, fill);
    }
  }

  /** The segments of a whole path. */
  lemma {:induction false} SegmentsBack(root: string, segs: seq<Segment>, fill: seq<Filler>)
    requires GoodName(root) && GoodNames(segs) && |fill| == Tables(segs) && NoStars(fill)
    ensures Assemble([], Pieces(root + Text(segs, fill))) == [Segment(root, false)] + segs
  {
    TextStart(segs, fill);
    PiecesPlain(root, Text(segs, fill));
    assert ([root] + Pieces(Text(segs, fill)))[1..] == Pieces(Text(segs, fill));
    assert root[0] != '{';
    assert [] + [Segment(root, false)] == [Segment(root, false)];
    AssembleText([Segment(root, false)], segs, fill);
  }

  // ---------------------------------------------------------------------------------------
  // Registration of a path.

  function StepsOf(segs: seq<Segment>, kind: Kind): seq<Step> {
    seq(|segs|, i requires 0 <= i < |segs| =>
      Step(segs[i].name,
           if i == |segs| - 1 && kind != MultiInstance then kind
           else if segs[i].table then MultiInstance else SingleInstance))
  }

  /** What the source demands of its caller: it would write in front of an array otherwise. */
  predicate StartsWithName(path: string) {
    Pieces(path) != [] ==> !IsInstance(Pieces(path)[0])
  }

  function Register(t: Tree, path: string, kind: Kind, flags: Flags): Registered
    requires |t.buckets| == BUCKETS && |t.nodes| >= ROOTS && StartsWithName(path)
  {
    var segs := Assemble([], Pieces(path));
    if |segs| == 0 || |segs| > MAX_SEGMENTS then Registered(t, None)
    else
      var steps := StepsOf(segs, kind)[1..];
      if segs[0].name == t.nodes[0].name then Walk(t, 0, t.nodes[0].path, [], steps, flags)
      else if segs[0].name == t.nodes[1].name then Walk(t, 1, t.nodes[1].path, [], steps, flags)
      else Registered(t, None)
  }

  datatype Request = Request(path: string, kind: Kind, flags: Flags)

  function RegisterAll(t: Tree, requests: seq<Request>): Tree
    requires Ok(t) && forall i :: 0 <= i < |requests| ==> StartsWithName(requests[i].path)
    ensures Ok(RegisterAll(t, requests))
    decreases |requests|
  {
    if requests == [] then t
    else
      var r := requests[0];
      RegisterKeeps(t, r.path, r.kind, r.flags);
      RegisterAll(Register(t, r.path, r.kind, r.flags).tree, requests[1..])
  }

  lemma {:induction false} RegisterKeeps(t: Tree, path: string, kind: Kind, flags: Flags)
    requires Ok(t) && StartsWithName(path)
    ensures var r := Register(t, path, kind, flags);
            Ok(r.tree) && Kept(t.nodes, r.tree.nodes) && (r.node.Some? ==> r.node.value < |r.tree.nodes|)
  {
    var segs := Assemble([], Pieces(path));
    if 0 < |segs| <= MAX_SEGMENTS {
      var steps := StepsOf(segs, kind)[1..];
      assert Descends(t.nodes, 0) && Descends(t.nodes, 1);
      if segs[0].name == t.nodes[0].name {
        WalkKeeps(t, 0, t.nodes[0].path, [], steps, flags);
      } else if segs[0].name == t.nodes[1].name {
        WalkKeeps(t, 1, t.nodes[1].path, [], steps, flags);
      }
    }
  }

  // ---------------------------------------------------------------------------------------
  // Looking up.

  datatype Lookup = Missing | Found(node: nat, numbers: seq<nat>, qualified: bool)

  /** The node whose path, or whose path without its last instance, has been scanned. */
  function NodeOf(t: Tree, schema: string): Option<nat>
    requires |t.buckets| == BUCKETS
  {
    var direct := Find(t, CalcHash(schema));
    if direct.Some? then direct else Find(t, HashFrom(CalcHash(schema), DOT_MARKER))
  }

  function GetNode(t: Tree, path: string): Lookup
    requires Indexed(t)
  {
    match ScanFrom(path, 0)
    case TooMany => Missing
    case Scanned(schema, numbers) =>
      match NodeOf(t, schema)
      case None => Missing
      case Some(id) =>
        var n := t.nodes[id];
        if |numbers| == |n.tables| then Found(id, numbers, true)
        else if n.kind == MultiInstance && |numbers| + 1 == |n.tables| then Found(id, numbers, false)
        else Missing
  }

  /** Doubled dots and a trailing dot do not matter. */
  lemma {:induction false} DotsDoNotMatter(t: Tree, a: string, b: string)
    requires Indexed(t)
    ensures GetNode(t, a + (".." + b)) == GetNode(t, a + ("." + b))
    ensures GetNode(t, a + ".") == GetNode(t, a)
  {
    ExtraDots(a, b, 0);
  }

  function Shape(steps: seq<Step>): seq<Segment> {
    if steps == [] then [] else [Segment(steps[0].name, steps[0].kind == MultiInstance)] + Shape(steps[1..])
  }

  lemma {:induction false} ShapeText(steps: seq<Step>)
    ensures PathText(steps) == SchemaText(Shape(steps))
  {
    if steps != [] {
      var segs := Shape(steps);
      assert segs[1..] == Shape(steps[1..]);
      ShapeText(steps[1..]);
      SchemaTextStep(segs);
      var marker := if segs[0].table then DOT_MARKER else "";
      assert ("." + (segs[0].name + marker)) + SchemaText(segs[1..]) == "." + (segs[0].name + (marker + SchemaText(segs[1..])));
    }
  }

  lemma {:induction false} LeadsThroughTables(t: Tree, parent: nat, steps: seq<Step>, node: nat, anyLastKind: bool)
    requires Ok(t) && parent < |t.nodes| && Leads(t, parent, steps, node, anyLastKind)
    ensures node < |t.nodes| && |t.nodes[node].tables| == |t.nodes[parent].tables| + Tables(Shape(steps))
    decreases |steps|
  {
    if steps != [] {
      var child := Child(t.nodes, t.nodes[parent].children, steps[0].name).value;
      ChildDescends(t, parent, child);
      LeadsThroughTables(t, child, steps[1..], node, anyLastKind);
      assert Shape(steps)[1..] == Shape(steps[1..]);
    }
  }

  // ---------------------------------------------------------------------------------------
  // Paths tell nodes apart.

  lemma {:induction false} TextInjective(rootA: string, segsA: seq<Segment>, rootB: string, segsB: seq<Segment>)
    requires GoodName(rootA) && GoodNames(segsA) && GoodName(rootB) && GoodNames(segsB)
    requires rootA + SchemaText(segsA) == rootB + SchemaText(segsB)
    ensures rootA == rootB && segsA == segsB
  {
    SegmentsBack(rootA, segsA, Markers(Tables(segsA)));
    SegmentsBack(rootB, segsB, Markers(Tables(segsB)));
    var a, b := [Segment(rootA, false)] + segsA, [Segment(rootB, false)] + segsB;
    assert a[0] == b[0] && a[1..] == segsA && b[1..] == segsB;
  }

  lemma {:induction false} Assoc(a: string, b: string, c: string)
    ensures (a + b) + c == a + (b + c)
  {
  }

  function Ending(g: Segment): string {
    "." + (g.name + (if g.table then DOT_MARKER else ""))
  }

  lemma {:induction false} SchemaTextFirst(segs: seq<Segment>)
    requires segs != []
    ensures SchemaText(segs) == Ending(segs[0]) + SchemaText(segs[1..])
  {
    var marker, rest := if segs[0].table then DOT_MARKER else "", SchemaText(segs[1..]);
    SchemaTextStep(segs);
    assert "." + (segs[0].name + (marker + rest)) == ("." + (segs[0].name + marker)) + rest;
  }

  lemma {:induction false} SchemaTextAppend(segs: seq<Segment>, g: Segment)
    ensures SchemaText(segs + [g]) == SchemaText(segs) + Ending(g)
  {
    SchemaTextFirst(segs + [g]);
    if segs == [] {
      assert (segs + [g])[1..] == [] && SchemaText([]) == "";
      assert "" + Ending(g) == Ending(g) && Ending(g) + "" == Ending(g);
    } else {
      assert (segs + [g])[1..] == segs[1..] + [g];
      SchemaTextAppend(segs[1..], g);
      SchemaTextFirst(segs);
      Assoc(Ending(segs[0]), SchemaText(segs[1..]), Ending(g));
    }
  }

  /** The segments from the root to a node. */
  function Chain(t: Tree, id: nat): seq<Segment>
    requires WellFormed(t) && id < |t.nodes|
  {
    if id < ROOTS then []
    else
      assert Descends(t.nodes, id);
      Chain(t, t.nodes[id].parent) + [Segment(t.nodes[id].name, t.nodes[id].kind == MultiInstance)]
  }

  function RootOf(t: Tree, id: nat): (r: nat)
    requires WellFormed(t) && id < |t.nodes|
    ensures r < ROOTS
  {
    if id < ROOTS then id
    else
      assert Descends(t.nodes, id);
      RootOf(t, t.nodes[id].parent)
  }

  lemma {:induction false} ChainPath(t: Tree, id: nat)
    requires WellFormed(t) && id < |t.nodes|
    ensures t.nodes[id].path == t.nodes[RootOf(t, id)].name + SchemaText(Chain(t, id))
  {
    assert Descends(t.nodes, id);
    if id < ROOTS {
      assert SchemaText([]) == "" && t.nodes[id].name + "" == t.nodes[id].name;
    } else {
      var p, g := t.nodes[id].parent, Segment(t.nodes[id].name, t.nodes[id].kind == MultiInstance);
      ChainPath(t, p);
      SchemaTextAppend(Chain(t, p), g);
      Assoc(t.nodes[RootOf(t, p)].name, SchemaText(Chain(t, p)), Ending(g));
      assert t.nodes[id].path == t.nodes[p].path + Ending(g);
    }
  }

  lemma {:induction false} ChainGood(t: Tree, id: nat)
    requires WellFormed(t) && GoodTree(t) && id < |t.nodes|
    ensures GoodNames(Chain(t, id))
  {
    if id >= ROOTS {
      assert Descends(t.nodes, id);
      ChainGood(t, t.nodes[id].parent);
    }
  }

  predicate SameNames(a: seq<Segment>, b: seq<Segment>) {
    |a| == |b| && forall i :: 0 <= i < |a| ==> a[i].name == b[i].name
  }

  /** The names on the way from a root determine a node. */
  lemma {:induction false} NamesDetermine(t: Tree, a: nat, b: nat)
    requires WellFormed(t) && a < |t.nodes| && b < |t.nodes|
    requires RootOf(t, a) == RootOf(t, b) && SameNames(Chain(t, a), Chain(t, b))
    ensures a == b
  {
    if a >= ROOTS && b >= ROOTS {
      assert Descends(t.nodes, a) && Descends(t.nodes, b);
      var ca, cb := Chain(t, a), Chain(t, b);
      var pa, pb := t.nodes[a].parent, t.nodes[b].parent;
      assert ca[..|ca| - 1] == Chain(t, pa) && cb[..|cb| - 1] == Chain(t, pb);
      forall i | 0 <= i < |Chain(t, pa)| ensures Chain(t, pa)[i].name == Chain(t, pb)[i].name {
        assert ca[i].name == cb[i].name;
      }
      NamesDetermine(t, pa, pb);
      assert ca[|ca| - 1].name == cb[|cb| - 1].name;
      ChildUnique(t, pa, a);
      ChildUnique(t, pa, b);
    }
  }

  /** So different nodes have different paths. */
  lemma {:induction false} PathsDiffer(t: Tree, a: nat, b: nat)
    requires WellFormed(t) && GoodTree(t) && a < |t.nodes| && b < |t.nodes|
    ensures t.nodes[a].path == t.nodes[b].path <==> a == b
  {
    if t.nodes[a].path == t.nodes[b].path {
      ChainPath(t, a);
      ChainPath(t, b);
      ChainGood(t, a);
      ChainGood(t, b);
      TextInjective(t.nodes[RootOf(t, a)].name, Chain(t, a), t.nodes[RootOf(t, b)].name, Chain(t, b));
      NamesDetermine(t, a, b);
    }
  }

  lemma {:induction false} ChainTables(t: Tree, id: nat)
    requires WellFormed(t) && id < |t.nodes|
    ensures Tables(Chain(t, id)) == |t.nodes[id].tables|
  {
    assert Descends(t.nodes, id);
    if id >= ROOTS {
      ChainTables(t, t.nodes[id].parent);
      TablesAppend(Chain(t, t.nodes[id].parent), Segment(t.nodes[id].name, t.nodes[id].kind == MultiInstance));
    }
  }

  lemma {:induction false} TablesAppend(segs: seq<Segment>, g: Segment)
    ensures Tables(segs + [g]) == Tables(segs) + (if g.table then 1 else 0)
  {
    if segs != [] {
      assert (segs + [g])[1..] == segs[1..] + [g];
      TablesAppend(segs[1..], g);
    }
  }

  // ---------------------------------------------------------------------------------------
  // Every node is found by the instances of its path.

  /** The path of any node, instantiated with as many numbers as it has tables, leads to that node, these
      numbers and `qualified`. */
  lemma {:induction false} NodeIsFound(t: Tree, id: nat, numbers: seq<nat>)
    requires Ok(t) && GoodTree(t) && id < |t.nodes| && |numbers| == |t.nodes[id].tables| <= MAX_ORDER
    ensures var path := Instantiate(t.nodes[id].path, numbers);
            path.Some? && GetNode(t, path.value) == Found(id, numbers, true)
  {
    NodeIsScanned(t, id, numbers);
    FindExact(t, t.nodes[id].hash);
  }

  lemma {:induction false} NodeIsScanned(t: Tree, id: nat, numbers: seq<nat>)
    requires WellFormed(t) && GoodTree(t) && id < |t.nodes| && |numbers| == |t.nodes[id].tables| <= MAX_ORDER
    ensures var path := Instantiate(t.nodes[id].path, numbers);
            path.Some? && ScanFrom(path.value, 0) == Scanned(t.nodes[id].path, numbers)
  {
    ChainPath(t, id);
    ChainGood(t, id);
    ChainTables(t, id);
    InstantiateThenScan(t.nodes[RootOf(t, id)].name, Chain(t, id), numbers);
  }

  // ---------------------------------------------------------------------------------------
  // Tables without their last number.

  /** No node is found under the hash of `s` except the node of that very path. */
  predicate NoCollision(t: Tree, s: string) {
    forall id :: 0 <= id < |t.nodes| && t.nodes[id].hash == CalcHash(s) ==> t.nodes[id].path == s
  }

  /** The path of a table without its instance. */
  function TablePath(t: Tree, id: nat): string
    requires ROOTS <= id < |t.nodes| && t.nodes[id].parent < |t.nodes|
  {
    t.nodes[t.nodes[id].parent].path + ("." + t.nodes[id].name)
  }

  lemma {:induction false} TablePathText(t: Tree, id: nat)
    requires WellFormed(t) && ROOTS <= id < |t.nodes| && t.nodes[id].kind == MultiInstance
    ensures t.nodes[id].parent < id
    ensures var segs := Chain(t, t.nodes[id].parent) + [Segment(t.nodes[id].name, false)];
            TablePath(t, id) == t.nodes[RootOf(t, id)].name + SchemaText(segs)
    ensures t.nodes[id].path == TablePath(t, id) + DOT_MARKER
  {
    assert Descends(t.nodes, id);
    var p, g := t.nodes[id].parent, Segment(t.nodes[id].name, false);
    ChainPath(t, p);
    SchemaTextAppend(Chain(t, p), g);
    PlainEnding(g);
    Assoc(t.nodes[RootOf(t, p)].name, SchemaText(Chain(t, p)), Ending(g));
    MarkerLast(t.nodes[p].path, g.name);
  }

  lemma {:induction false} PlainEnding(g: Segment)
    ensures !g.table ==> Ending(g) == "." + g.name
  {
    assert g.name + "" == g.name;
  }

  lemma {:induction false} MarkerLast(path: string, name: string)
    ensures path + ("." + (name + DOT_MARKER)) == (path + ("." + name)) + DOT_MARKER
  {
  }

  /** No node has the path of a table without its instance. */
  lemma {:induction false} TablePathFree(t: Tree, id: nat, other: nat)
    requires WellFormed(t) && GoodTree(t) && other < |t.nodes|
    requires ROOTS <= id < |t.nodes| && t.nodes[id].kind == MultiInstance
    ensures t.nodes[id].parent < id && t.nodes[other].path != TablePath(t, id)
  {
    TablePathText(t, id);
    if t.nodes[other].path == TablePath(t, id) {
      var p := t.nodes[id].parent;
      var segs := Chain(t, p) + [Segment(t.nodes[id].name, false)];
      ChainPath(t, other);
      ChainGood(t, other);
      ChainGood(t, p);
      TextInjective(t.nodes[RootOf(t, other)].name, Chain(t, other), t.nodes[RootOf(t, id)].name, segs);
      NamesDetermine(t, other, id);
    }
  }

  /** The path of the other node and the path of this table without its instance differ, but not their hashes. */
  predicate Collides(t: Tree, id: nat, other: nat)
    requires ROOTS <= id < |t.nodes| && t.nodes[id].parent < |t.nodes| && other < |t.nodes|
  {
    t.nodes[other].path != TablePath(t, id) && CalcHash(t.nodes[other].path) == CalcHash(TablePath(t, id))
  }

  /** No path of another node collides with the path of this table without its instance. */
  predicate Unclaimed(t: Tree, id: nat)
    requires ROOTS <= id < |t.nodes| && t.nodes[id].parent < |t.nodes|
  {
    forall other :: 0 <= other < |t.nodes| && other != id ==> !Collides(t, id, other)
  }

  lemma {:induction false} TableByHash(t: Tree, id: nat)
    requires Ok(t) && GoodTree(t) && ROOTS <= id < |t.nodes| && t.nodes[id].kind == MultiInstance
    ensures t.nodes[id].parent < id
    ensures NodeOf(t, TablePath(t, id)) == Some(id) <==> Unclaimed(t, id)
  {
    TablePathText(t, id);
    var schema := TablePath(t, id);
    forall other | 0 <= other < |t.nodes| ensures Collides(t, id, other) <==> t.nodes[other].hash == CalcHash(schema) {
      TablePathFree(t, id, other);
    }
    HashAppend(OFFSET_BASIS, schema, DOT_MARKER);
    FindExact(t, CalcHash(schema));
    FindExact(t, CalcHash(t.nodes[id].path));
  }

  /** The path of a table, instantiated up to its parent, leads to the table, these numbers and `unqualified`,
      exactly if no other path in the tree has the same hash as that path. */
  lemma {:induction false} TableIsFound(t: Tree, id: nat, numbers: seq<nat>)
    requires Ok(t) && GoodTree(t) && ROOTS <= id < |t.nodes| && t.nodes[id].kind == MultiInstance
    requires |numbers| + 1 == |t.nodes[id].tables| <= MAX_ORDER
    ensures t.nodes[id].parent < id
    ensures var path := Instantiate(TablePath(t, id), numbers);
            path.Some? && (GetNode(t, path.value) == Found(id, numbers, false) <==> Unclaimed(t, id))
  {
    TablePathText(t, id);
    var p := t.nodes[id].parent;
    var segs := Chain(t, p) + [Segment(t.nodes[id].name, false)];
    assert Descends(t.nodes, id);
    ChainGood(t, p);
    ChainTables(t, p);
    TablesAppend(Chain(t, p), Segment(t.nodes[id].name, false));
    InstantiateThenScan(t.nodes[RootOf(t, id)].name, segs, numbers);
    TableByHash(t, id);
    NodeOfFound(t, TablePath(t, id));
  }

  lemma {:induction false} NodeOfFound(t: Tree, schema: string)
    requires Indexed(t)
    ensures var r := NodeOf(t, schema); r.Some? ==> r.value < |t.nodes|
  {
    FindExact(t, CalcHash(schema));
    FindExact(t, HashFrom(CalcHash(schema), DOT_MARKER));
  }

  /** Conversely, what is found is what the path means, if no hash collides with it. */
  lemma {:induction false} FoundIsMeant(t: Tree, path: string)
    requires Ok(t) && GetNode(t, path).Found?
    requires ScanFrom(path, 0).Scanned? ==>
               NoCollision(t, ScanFrom(path, 0).schema) && NoCollision(t, ScanFrom(path, 0).schema + DOT_MARKER)
    ensures var r, s := GetNode(t, path), ScanFrom(path, 0);
            && r.node < |t.nodes| && s.Scanned? && r.numbers == s.numbers
            && t.nodes[r.node].path in {s.schema, s.schema + DOT_MARKER}
            && |t.nodes[r.node].tables| == |r.numbers| + (if r.qualified then 0 else 1)
  {
    var schema := ScanFrom(path, 0).schema;
    HashAppend(OFFSET_BASIS, schema, DOT_MARKER);
    FindExact(t, CalcHash(schema));
    FindExact(t, CalcHash(schema + DOT_MARKER));
  }

  // ---------------------------------------------------------------------------------------
  // Register, then look up.

  lemma {:induction false} StepsShape(root: Segment, segs: seq<Segment>, kind: Kind)
    requires segs != [] ==> (kind == MultiInstance <==> segs[|segs| - 1].table)
    ensures Shape(StepsOf([root] + segs, kind)[1..]) == segs
  {
    ShapeAt(StepsOf([root] + segs, kind)[1..]);
  }

  lemma {:induction false} ShapeAt(steps: seq<Step>)
    ensures |Shape(steps)| == |steps|
    ensures forall i :: 0 <= i < |steps| ==> Shape(steps)[i] == Segment(steps[i].name, steps[i].kind == MultiInstance)
  {
    if steps != [] {
      ShapeAt(steps[1..]);
      assert forall i :: 0 < i < |steps| ==> Shape(steps)[i] == Shape(steps[1..])[i - 1] && steps[i] == steps[1..][i - 1];
    }
  }

  function RootedSteps(root: string, segs: seq<Segment>, kind: Kind): seq<Step> {
    StepsOf([Segment(root, false)] + segs, kind)[1..]
  }

  lemma {:induction false} RegisterLeads(t: Tree, root: nat, segs: seq<Segment>, kind: Kind, flags: Flags)
    requires Ok(t) && Root(root) && GoodName(t.nodes[0].name) && GoodName(t.nodes[1].name) && GoodNames(segs)
    requires |segs| < MAX_SEGMENTS
    ensures var path := t.nodes[root].name + SchemaText(segs);
            && StartsWithName(path)
            && var r := Register(t, path, kind, flags);
               && Ok(r.tree) && |t.nodes| <= |r.tree.nodes| && r.tree.nodes[root].name == t.nodes[root].name
               && (r.node.Some? ==>
                     Leads(r.tree, root, RootedSteps(t.nodes[root].name, segs, kind), r.node.value, flags.anyLastKind))
  {
    var name := t.nodes[root].name;
    var path, steps := name + SchemaText(segs), RootedSteps(name, segs, kind);
    SegmentsBack(name, segs, Markers(Tables(segs)));
    NameBegins(name, segs);
    RegisterKeeps(t, path, kind, flags);
    assert Descends(t.nodes, root);
    assert StepsOf([Segment(name, false)] + segs, kind)[0].name == name;
    var r := Register(t, path, kind, flags);
    assert r == Walk(t, root, t.nodes[root].path, [], steps, flags);
    if r.node.Some? {
      WalkLeads(t, root, t.nodes[root].path, [], steps, flags);
    }
  }

  /** A successful registration leads to a node with the path and the order registered. */
  lemma {:induction false} RegisteredNode(t: Tree, root: nat, segs: seq<Segment>, kind: Kind, flags: Flags)
    requires Ok(t) && Root(root) && GoodName(t.nodes[0].name) && GoodName(t.nodes[1].name) && GoodNames(segs)
    requires |segs| < MAX_SEGMENTS && (segs != [] ==> (kind == MultiInstance <==> segs[|segs| - 1].table))
    ensures var path := t.nodes[root].name + SchemaText(segs);
            && StartsWithName(path)
            && var r := Register(t, path, kind, flags);
               Ok(r.tree) &&
               (r.node.Some? ==>
                  && r.node.value < |r.tree.nodes| && r.tree.nodes[r.node.value].path == path
                  && |r.tree.nodes[r.node.value].tables| == Tables(segs))
  {
    var name := t.nodes[root].name;
    var steps := RootedSteps(name, segs, kind);
    RegisterLeads(t, root, segs, kind, flags);
    var r := Register(t, name + SchemaText(segs), kind, flags);
    if r.node.Some? {
      StepsShape(Segment(name, false), segs, kind);
      LeadsToPath(r.tree, root, steps, r.node.value, flags.anyLastKind);
      LeadsThroughTables(r.tree, root, steps, r.node.value, flags.anyLastKind);
      ShapeText(steps);
      assert Descends(r.tree.nodes, root);
    }
  }

  /** Whatever path has been registered, its instances lead to its node from then on, no matter what is registered
      later and whether that succeeds. */
  lemma {:induction false} RegisterThenFind(t: Tree, root: nat, segs: seq<Segment>, kind: Kind, flags: Flags,
                                            later: seq<Request>, numbers: seq<nat>)
    requires Ok(t) && GoodTree(t) && Root(root) && GoodNames(segs) && GoodRequests(later)
    requires |segs| < MAX_SEGMENTS && (segs != [] ==> (kind == MultiInstance <==> segs[|segs| - 1].table))
    requires |numbers| == Tables(segs) <= MAX_ORDER
    ensures var path := t.nodes[root].name + SchemaText(segs);
            && StartsWithName(path)
            && var r := Register(t, path, kind, flags);
               Ok(r.tree) &&
               (r.node.Some? ==>
                  var t' := RegisterAll(r.tree, later);
                  && r.node.value < |t'.nodes| && t'.nodes[r.node.value].path == path
                  && Instantiate(path, numbers).Some?
                  && GetNode(t', Instantiate(path, numbers).value) == Found(r.node.value, numbers, true))
  {
    var path := t.nodes[root].name + SchemaText(segs);
    RegisteredNode(t, root, segs, kind, flags);
    GoodText(t.nodes[root].name, segs);
    RegisterGood(t, path, kind, flags);
    var r := Register(t, path, kind, flags);
    if r.node.Some? {
      RegisterAllKeeps(r.tree, later);
      NodeIsFound(RegisterAll(r.tree, later), r.node.value, numbers);
    }
  }

  // ---------------------------------------------------------------------------------------
  // Good names.

  /** The segments of the path have names that can be told from dots, numbers and markers. */
  predicate GoodPath(path: string) {
    GoodNames(Assemble([], Pieces(path)))
  }

  predicate GoodRequests(requests: seq<Request>) {
    forall i :: 0 <= i < |requests| ==> StartsWithName(requests[i].path) && GoodPath(requests[i].path)
  }

  lemma {:induction false} GoodText(root: string, segs: seq<Segment>)
    requires GoodName(root) && GoodNames(segs)
    ensures GoodPath(root + SchemaText(segs))
  {
    SegmentsBack(root, segs, Markers(Tables(segs)));
  }

  lemma {:induction false} RegisterGood(t: Tree, path: string, kind: Kind, flags: Flags)
    requires Ok(t) && GoodTree(t) && StartsWithName(path) && GoodPath(path)
    ensures GoodTree(Register(t, path, kind, flags).tree)
  {
    var segs := Assemble([], Pieces(path));
    if 0 < |segs| <= MAX_SEGMENTS {
      var steps := StepsOf(segs, kind)[1..];
      assert GoodSteps(steps);
      WalkGood(t, 0, t.nodes[0].path, [], steps, flags);
      WalkGood(t, 1, t.nodes[1].path, [], steps, flags);
    }
  }

  /** No registration takes anything away, and registering good names leaves a tree of good names. */
  lemma {:induction false} RegisterAllKeeps(t: Tree, requests: seq<Request>)
    requires Ok(t) && GoodTree(t) && GoodRequests(requests)
    ensures var t' := RegisterAll(t, requests); Ok(t') && GoodTree(t') && Kept(t.nodes, t'.nodes)
    decreases |requests|
  {
    if requests != [] {
      var r := requests[0];
      var t1 := Register(t, r.path, r.kind, r.flags).tree;
      RegisterKeeps(t, r.path, r.kind, r.flags);
      RegisterGood(t, r.path, r.kind, r.flags);
      RegisterAllKeeps(t1, requests[1..]);
      KeptTwice(t.nodes, t1.nodes, RegisterAll(t1, requests[1..]).nodes);
    }
  }

  lemma {:induction false} NameBegins(root: string, segs: seq<Segment>)
    requires GoodName(root) && GoodNames(segs)
    ensures StartsWithName(root + SchemaText(segs))
  {
    TextStart(segs, Markers(Tables(segs)));
    PiecesPlain(root, SchemaText(segs));
    assert root[0] != '{';
  }
}
