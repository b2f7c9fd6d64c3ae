/** Adding and deleting object instances, with the rows and the nested instances that belong to them. */
module InstanceCascade {
  import opened Options
  import opened InstanceNumbers
  import opened SchemaTree
  import opened SchemaLookup
  import opened DatabaseKeys
  import opened InstanceSet
  import opened InstanceScopes

  // ---------------------------------------------------------------------------------------
  // One step of a deletion.

  lemma {:induction false} NoChildren(t: Tree, c: nat)
    requires WellFormed(t) && c < |t.nodes| && !IsObject(t.nodes[c].kind)
    ensures t.nodes[c].children == []
  {
    assert Listed(t.nodes, c);
    if t.nodes[c].children != [] {
      ParentIsObject(t, t.nodes[c].children[0]);
    }
  }

  lemma {:induction false} ParentIsObject(t: Tree, x: nat)
    requires WellFormed(t) && ROOTS <= x < |t.nodes|
    ensures t.nodes[x].parent < |t.nodes| && IsObject(t.nodes[t.nodes[x].parent].kind)
  {
    assert Descends(t.nodes, x);
  }

  /** A parameter is hit only at the instance itself. */
  lemma {:induction false} LeafScope(t: Tree, node: nat, instances: set<Instance>, c: nat, inst: Instance, q: nat, l: seq<nat>)
    requires WellFormed(t) && ChildOf(t, node, c) && At(t, node, inst) && !IsObject(t.nodes[c].kind)
    ensures Hit(t, instances, [c], inst, q, l) <==> q == c && l == inst.numbers
  {
    assert Descends(t.nodes, c);
    NoChildren(t, c);
    ThroughObject(t, instances, c, inst, q, l);
  }

  lemma {:induction false} RowRemoved(t: Tree, w: World, node: nat, c: nat, inst: Instance)
    requires Ok(t) && ChildOf(t, node, c) && At(t, node, inst) && Stored(t.nodes[c].kind)
    ensures Deleted(t, w, w.(rows := w.rows - {RowKey(t, c, inst.numbers)}), Subtree(w.instances, [c], inst))
  {
    var s := Subtree(w.instances, [c], inst);
    forall q: nat, l: seq<nat> ensures InScope(t, s, q, l) <==> q == c && l == inst.numbers {
      LeafScope(t, node, w.instances, c, inst, q, l);
    }
    forall key ensures RowInScope(t, s, key) <==> key == RowKey(t, c, inst.numbers) {
      DecodeExact(t, key, c, inst.numbers);
    }
  }

  lemma {:induction false} LeafKept(t: Tree, w: World, node: nat, c: nat, inst: Instance)
    requires Ok(t) && ChildOf(t, node, c) && At(t, node, inst) && !IsObject(t.nodes[c].kind) && !Stored(t.nodes[c].kind)
    ensures Deleted(t, w, w, Subtree(w.instances, [c], inst))
  {
    var s := Subtree(w.instances, [c], inst);
    forall q: nat, l: seq<nat> ensures InScope(t, s, q, l) <==> q == c && l == inst.numbers {
      LeafScope(t, node, w.instances, c, inst, q, l);
    }
    NothingDeleted(t, w, s);
  }

  lemma {:induction false} ObjectDeleted(t: Tree, w: World, v: World, node: nat, c: nat, inst: Instance)
    requires Ok(t) && ChildOf(t, node, c) && At(t, node, inst) && t.nodes[c].kind == SingleInstance
    requires Deleted(t, w, v, Subtree(w.instances, t.nodes[c].children, inst))
    ensures Deleted(t, w, v, Subtree(w.instances, [c], inst))
  {
    var a, s := Subtree(w.instances, t.nodes[c].children, inst), Subtree(w.instances, [c], inst);
    forall key ensures RowInScope(t, s, key) <==> RowInScope(t, a, key) {
      var d := Decode(t, key);
      if d.Some? {
        ThroughObject(t, w.instances, c, inst, d.value.node, d.value.numbers);
      }
    }
    forall x ensures InstanceInScope(t, s, x) <==> InstanceInScope(t, a, x) {
      if ValidInstance(t, x) {
        ThroughObject(t, w.instances, c, inst, x.tables[|x.tables| - 1], x.numbers);
      }
    }
  }

  /** One entry of a table: what is below it, and then itself. */
  lemma {:induction false} EntryParts(t: Tree, node: nat, instances: set<Instance>, now: set<Instance>,
                                      c: nat, inst: Instance, done: set<nat>, n: nat)
    requires WellFormed(t) && ValidSet(t, instances) && ChildOf(t, node, c) && At(t, node, inst)
    requires t.nodes[c].kind == MultiInstance && InstancesDeleted(t, instances, now, Entries(instances, c, inst, done))
    requires n in NumbersIn(instances, t.nodes[c].tables, inst.numbers) && n !in done
    ensures Parts(t, Subtree(now, t.nodes[c].children, Entry(t, c, inst, n)), One(c, Entry(t, c, inst, n).numbers),
                  Entries(instances, c, inst, {n}))
  {
    var cs, entry := t.nodes[c].children, Entry(t, c, inst, n);
    forall q: nat, l: seq<nat>
      ensures InScope(t, Entries(instances, c, inst, {n}), q, l) <==>
                Hit(t, now, cs, entry, q, l) || (q == c && l == entry.numbers)
      ensures !(Hit(t, now, cs, entry, q, l) && q == c)
    {
      EntryUntouched(t, node, instances, now, c, inst, done, n, q, l);
      ThroughEntry(t, node, instances, c, inst, q, l);
      if entry.numbers <= l {
        assert l[|inst.numbers|] == entry.numbers[|inst.numbers|] == n;
      }
      if q == c && Beneath(t, cs, c) {
        var j :| 0 <= j < |cs| && Above(t, cs[j], c);
        assert Listed(t.nodes, c);
        AboveIsSmaller(t, cs[j], c);
      }
    }
  }

  lemma {:induction false} MoreEntries(t: Tree, instances: set<Instance>, c: nat, inst: Instance, done: set<nat>, n: nat)
    requires n !in done
    ensures Parts(t, Entries(instances, c, inst, done), Entries(instances, c, inst, {n}), Entries(instances, c, inst, done + {n}))
  {
  }

  lemma {:induction false} AllEntries(t: Tree, w: World, v: World, node: nat, c: nat, inst: Instance)
    requires Ok(t) && ValidSet(t, w.instances) && ChildOf(t, node, c) && At(t, node, inst) && t.nodes[c].kind == MultiInstance
    requires Deleted(t, w, v, Entries(w.instances, c, inst, NumbersIn(w.instances, t.nodes[c].tables, inst.numbers)))
    ensures Deleted(t, w, v, Subtree(w.instances, [c], inst))
  {
    var a := Entries(w.instances, c, inst, NumbersIn(w.instances, t.nodes[c].tables, inst.numbers));
    forall q: nat, l: seq<nat> ensures InScope(t, Subtree(w.instances, [c], inst), q, l) <==> InScope(t, a, q, l) {
      ThroughEntry(t, node, w.instances, c, inst, q, l);
    }
    SameScope(t, w, v, a, Subtree(w.instances, [c], inst));
  }

  function Outside(instances: set<Instance>, inst: Instance): set<Instance> {
    set e | e in instances && !Within(e, inst.tables, inst.numbers)
  }

  // ---------------------------------------------------------------------------------------
  // No instance without the instances it is nested in.

  function UpTo(e: Instance, k: nat): Instance
    requires k <= |e.tables| && k <= |e.numbers|
  {
    Instance(e.tables[..k], e.numbers[..k])
  }

  predicate Closed(instances: set<Instance>) {
    forall e, k :: e in instances && 0 < k <= |e.numbers| && |e.tables| == |e.numbers| ==> UpTo(e, k) in instances
  }

  lemma {:induction false} PresentMeansEntry(t: Tree, instances: set<Instance>, x: Instance)
    requires ValidSet(t, instances) && Closed(instances) && |x.tables| == |x.numbers| > 0
    ensures Present(instances, x.tables, x.numbers) <==> x in instances
  {
    if Present(instances, x.tables, x.numbers) {
      var e :| e in instances && Within(e, x.tables, x.numbers);
      assert UpTo(e, |x.numbers|) == x;
    }
    if x in instances {
      assert Within(x, x.tables, x.numbers);
    }
  }

  /** Deleting an instance with everything in it keeps the set closed. */
  lemma {:induction false} DeletingKeepsClosed(t: Tree, instances: set<Instance>, inst: Instance)
    requires ValidSet(t, instances) && Closed(instances)
    ensures Closed(Outside(instances, inst))
  {
    forall e, k | e in Outside(instances, inst) && 0 < k <= |e.numbers| && |e.tables| == |e.numbers|
      ensures UpTo(e, k) in Outside(instances, inst)
    {
      if Within(UpTo(e, k), inst.tables, inst.numbers) {
        assert Within(e, inst.tables, inst.numbers);
      }
    }
  }

  /** So does adding an instance to a parent that exists. */
  lemma {:induction false} AddingKeepsClosed(t: Tree, instances: set<Instance>, table: nat, parent: Instance, n: nat)
    requires ValidSet(t, instances) && Closed(instances) && table < |t.nodes|
    requires |parent.tables| == |parent.numbers| && t.nodes[table].tables == parent.tables + [table]
    requires parent.numbers == [] || Present(instances, parent.tables, parent.numbers)
    ensures Closed(instances + {Entry(t, table, parent, n)})
  {
    var entry := Entry(t, table, parent, n);
    forall e, k | e in instances + {entry} && 0 < k <= |e.numbers| && |e.tables| == |e.numbers|
      ensures UpTo(e, k) in instances + {entry}
    {
      if e == entry {
        if k == |entry.numbers| {
          assert UpTo(entry, k) == entry;
        } else {
          assert UpTo(entry, k) == UpTo(parent, k);
          PresentMeansEntry(t, instances, parent);
        }
      }
    }
  }

  /** Taking an instance out again that was not present restores a closed set. */
  lemma {:induction false} OutAgain(t: Tree, instances: set<Instance>, entry: Instance)
    requires ValidSet(t, instances) && Closed(instances) && |entry.tables| == |entry.numbers| > 0
    requires entry !in instances
    ensures Outside(instances + {entry}, entry) == instances
  {
    PresentMeansEntry(t, instances, entry);
    assert Within(entry, entry.tables, entry.numbers);
  }

  // ---------------------------------------------------------------------------------------
  // The parts of a deletion.

  /** An entry within a table's instance is that instance, or belongs to a table below. */
  lemma {:induction false} WithinEntry(t: Tree, instances: set<Instance>, c: nat, entry: Instance, e: Instance)
    requires WellFormed(t) && ROOTS <= c < |t.nodes| && t.nodes[c].kind == MultiInstance
    requires ValidInstance(t, entry) && entry.tables == t.nodes[c].tables
    requires ValidInstance(t, e) && Within(e, entry.tables, entry.numbers) && e in instances
    ensures e == entry || InstanceInScope(t, Subtree(instances, t.nodes[c].children, entry), e)
  {
    assert Descends(t.nodes, c);
    if |e.numbers| > |entry.numbers| {
      var last, k := e.tables[|e.tables| - 1], |entry.tables| - 1;
      TableIsAbove(t, last, k);
      assert e.tables[..k + 1] == entry.tables && e.tables[k] == entry.tables[k] == c;
      if last == c {
        assert false;
      }
      BelowThroughChild(t, c, last);
      assert Within(e, e.tables, e.numbers);
    } else {
      assert e.tables == entry.tables && e.numbers == entry.numbers;
    }
  }

  lemma {:induction false} EntryRemoved(t: Tree, before: set<Instance>, w: World, c: nat, entry: Instance)
    requires Ok(t) && ROOTS <= c < |t.nodes| && t.nodes[c].kind == MultiInstance
    requires ValidSet(t, before) && ValidInstance(t, entry) && entry.tables == t.nodes[c].tables
    requires InstancesDeleted(t, before, w.instances, Subtree(before, t.nodes[c].children, entry))
    ensures Deleted(t, w, World(w.rows, Outside(w.instances, entry), w.deletions + [entry]), One(c, entry.numbers))
  {
    var s, v := One(c, entry.numbers), World(w.rows, Outside(w.instances, entry), w.deletions + [entry]);
    assert Descends(t.nodes, c);
    assert entry.tables[|entry.tables| - 1] == c;
    forall x ensures InstanceInScope(t, s, x) <==> x == entry {
      if InstanceInScope(t, s, x) {
        assert t.nodes[c].tables == x.tables;
      }
    }
    forall e ensures e in v.instances <==> e in w.instances && e != entry {
      if e in w.instances && Within(e, entry.tables, entry.numbers) {
        WithinEntry(t, before, c, entry, e);
      }
    }
    assert v.deletions[|w.deletions|..] == [entry];
  }

  // ---------------------------------------------------------------------------------------
  // What is added.

  /** The parameters of an instance that are not inside nested tables. */
  predicate Own(t: Tree, cs: seq<nat>, inst: Instance, q: nat) {
    q < |t.nodes| && Stored(t.nodes[q].kind) && Beneath(t, cs, q) && t.nodes[q].tables == inst.tables
  }

  predicate OwnRow(t: Tree, cs: seq<nat>, inst: Instance, key: Key)
    requires Indexed(t)
  {
    var d := Decode(t, key);
    d.Some? && d.value.numbers == inst.numbers && Own(t, cs, inst, d.value.node)
  }

  /** A value for each parameter; a callback that supplies one may fail. */
  type Values = nat -> Option<string>

  ghost predicate Supplied(t: Tree, cs: seq<nat>, inst: Instance, values: Values) {
    forall q: nat :: Own(t, cs, inst, q) ==> values(q).Some?
  }

  /** Exactly the rows of the own parameters are written, with their values. */
  ghost predicate RowsAdded(t: Tree, rows: Database, rows': Database, cs: seq<nat>, inst: Instance, values: Values)
    requires Indexed(t)
  {
    && Supplied(t, cs, inst, values)
    && (forall key :: key in rows' <==> key in rows || OwnRow(t, cs, inst, key))
    && (forall key :: key in rows' ==>
          if OwnRow(t, cs, inst, key) then values(Decode(t, key).value.node) == Some(rows'[key])
          else rows'[key] == rows[key])
  }

  /** At most rows of the own parameters are written. */
  ghost predicate OthersKept(t: Tree, rows: Database, rows': Database, cs: seq<nat>, inst: Instance)
    requires Indexed(t)
  {
    forall key :: !OwnRow(t, cs, inst, key) ==> (key in rows' <==> key in rows) && (key in rows ==> rows'[key] == rows[key])
  }

  lemma {:induction false} OwnOneMore(t: Tree, cs: seq<nat>, c: nat, inst: Instance)
    requires Indexed(t)
    ensures forall q: nat :: Own(t, cs + [c], inst, q) <==> Own(t, cs, inst, q) || Own(t, [c], inst, q)
    ensures forall key :: OwnRow(t, cs + [c], inst, key) <==> OwnRow(t, cs, inst, key) || OwnRow(t, [c], inst, key)
  {
    forall q: nat ensures Beneath(t, cs + [c], q) <==> Beneath(t, cs, q) || Beneath(t, [c], q) {
      BeneathOneMore(t, cs, c, q);
    }
  }

  lemma {:induction false} AddedTogether(t: Tree, w: Database, v: Database, u: Database, cs: seq<nat>, c: nat, inst: Instance, values: Values)
    requires Indexed(t) && RowsAdded(t, w, v, cs, inst, values) && RowsAdded(t, v, u, [c], inst, values)
    ensures RowsAdded(t, w, u, cs + [c], inst, values)
  {
    OwnOneMore(t, cs, c, inst);
  }

  lemma {:induction false} OwnOfLeaf(t: Tree, node: nat, c: nat, inst: Instance)
    requires Ok(t) && ChildOf(t, node, c) && At(t, node, inst) && !IsObject(t.nodes[c].kind)
    ensures forall q: nat :: Own(t, [c], inst, q) <==> q == c && Stored(t.nodes[c].kind)
    ensures forall key :: OwnRow(t, [c], inst, key) <==> key == RowKey(t, c, inst.numbers) && Stored(t.nodes[c].kind)
  {
    assert Descends(t.nodes, c);
    NoChildren(t, c);
    forall q: nat ensures Own(t, [c], inst, q) <==> q == c && Stored(t.nodes[c].kind) {
      BeneathOneMore(t, [], c, q);
      if q < |t.nodes| {
        BelowThroughChild(t, c, q);
      }
    }
    forall key ensures OwnRow(t, [c], inst, key) <==> key == RowKey(t, c, inst.numbers) && Stored(t.nodes[c].kind) {
      DecodeExact(t, key, c, inst.numbers);
    }
  }

  lemma {:induction false} OwnOfObject(t: Tree, node: nat, c: nat, inst: Instance)
    requires Ok(t) && ChildOf(t, node, c) && At(t, node, inst) && IsObject(t.nodes[c].kind)
    ensures forall q: nat ::
      Own(t, [c], inst, q) <==> t.nodes[c].kind == SingleInstance && Own(t, t.nodes[c].children, inst, q)
  {
    assert Descends(t.nodes, c);
    forall q: nat
      ensures Own(t, [c], inst, q) <==> t.nodes[c].kind == SingleInstance && Own(t, t.nodes[c].children, inst, q)
    {
      BeneathOneMore(t, [], c, q);
      if q < |t.nodes| {
        BelowThroughChild(t, c, q);
        if Above(t, c, q) {
          AboveKeepsTables(t, c, q);
        }
      }
    }
  }

  lemma {:induction false} LeafAdded(t: Tree, rows: Database, node: nat, c: nat, inst: Instance, values: Values)
    requires Ok(t) && ChildOf(t, node, c) && At(t, node, inst) && !IsObject(t.nodes[c].kind)
    ensures Supplied(t, [c], inst, values) <==> (Stored(t.nodes[c].kind) ==> values(c).Some?)
    ensures !Stored(t.nodes[c].kind) ==> RowsAdded(t, rows, rows, [c], inst, values)
    ensures Stored(t.nodes[c].kind) && values(c).Some? ==>
              var rows' := rows[RowKey(t, c, inst.numbers) := values(c).value];
              RowsAdded(t, rows, rows', [c], inst, values) && OthersKept(t, rows, rows', [c], inst)
  {
    OwnOfLeaf(t, node, c, inst);
    DecodeExact(t, RowKey(t, c, inst.numbers), c, inst.numbers);
  }

  lemma {:induction false} ObjectAdded(t: Tree, rows: Database, rows': Database, node: nat, c: nat, inst: Instance, values: Values)
    requires Ok(t) && ChildOf(t, node, c) && At(t, node, inst) && t.nodes[c].kind == SingleInstance
    ensures Supplied(t, [c], inst, values) <==> Supplied(t, t.nodes[c].children, inst, values)
    ensures RowsAdded(t, rows, rows', t.nodes[c].children, inst, values) ==> RowsAdded(t, rows, rows', [c], inst, values)
    ensures OthersKept(t, rows, rows', t.nodes[c].children, inst) ==> OthersKept(t, rows, rows', [c], inst)
  {
    OwnOfObject(t, node, c, inst);
    forall key ensures OwnRow(t, [c], inst, key) <==> OwnRow(t, t.nodes[c].children, inst, key) {
    }
  }

  lemma {:induction false} TableAdded(t: Tree, rows: Database, node: nat, c: nat, inst: Instance, values: Values)
    requires Ok(t) && ChildOf(t, node, c) && At(t, node, inst) && t.nodes[c].kind == MultiInstance
    ensures RowsAdded(t, rows, rows, [c], inst, values)
  {
    OwnOfObject(t, node, c, inst);
  }

  // ---------------------------------------------------------------------------------------
  // The object.

  class DataModel {
    const tree: Tree
    var rows: Database
    var instances: set<Instance>
    var deletions: seq<Instance>     // deletions to notify when the transaction is committed

    ghost predicate Valid()
      reads this
    {
      Ok(tree) && ValidSet(tree, instances) && Closed(instances)
    }

    ghost function Now(): World
      reads this
    {
      World(rows, instances, deletions)
    }

    constructor (tree: Tree)
      requires Ok(tree)
      ensures Valid() && this.tree == tree && Now() == World(map[], {}, [])
    {
      this.tree := tree;
      rows, instances, deletions := map[], {}, [];
    }

    /** Deletes everything below a node within an instance. */
    method DeleteChildParams(node: nat, inst: Instance)
      requires Valid() && At(tree, node, inst)
      modifies this
      ensures Valid()
      ensures Deleted(tree, old(Now()), Now(), Subtree(old(instances), tree.nodes[node].children, inst))
      decreases |tree.nodes| - node, 0, 0
    {
      ghost var was := Now();
      ghost var cs := tree.nodes[node].children;
      assert Listed(tree.nodes, node);
      var i := 0;
      assert cs[..0] == [];
      NothingDeleted(tree, was, Subtree(was.instances, [], inst));
      while i < |tree.nodes[node].children|
        invariant i <= |cs| && Valid()
        invariant Deleted(tree, was, Now(), Subtree(was.instances, cs[..i], inst))
      {
        ghost var before := Now();
        var child := tree.nodes[node].children[i];
        assert cs[..i + 1] == cs[..i] + [child];
        DeleteChild(node, child, inst);
        SiblingsDiffer(tree, node, i);
        NextChild(tree, node, was.instances, before.instances, cs[..i], child, inst);
        DeletedTogether(tree, was, before, Now(), Subtree(was.instances, cs[..i], inst),
                        Subtree(before.instances, [child], inst), Subtree(was.instances, cs[..i + 1], inst));
        i := i + 1;
      }
      assert cs[..i] == cs;
    }

    /** Deletes one child with everything below it: the row of a parameter, the children of an object, all
        instances of a table. */
    method DeleteChild(node: nat, child: nat, inst: Instance)
      requires Valid() && At(tree, node, inst) && ChildOf(tree, node, child) && node < child
      modifies this
      ensures Valid()
      ensures Deleted(tree, old(Now()), Now(), Subtree(old(instances), [child], inst))
      decreases |tree.nodes| - child, 2
    {
      ghost var was := Now();
      assert Descends(tree.nodes, child);
      match tree.nodes[child].kind {
        case DbReadOnly | DbReadWrite | DbReadOnlyAuto | DbReadWriteAuto | DbSecure =>
          var text := FormInstanceString(inst.numbers);
          RowRemoved(tree, was, node, child, inst);
          rows := rows - {Key(tree.nodes[child].hash, text)};
        case SingleInstance =>
          DeleteChildParams(child, inst);
          ObjectDeleted(tree, was, Now(), node, child, inst);
        case MultiInstance =>
          DeleteAllInstances(node, child, inst);
        case _ =>
          LeafKept(tree, was, node, child, inst);
      }
    }

    /** Deletes all instances of a table, each after what is nested in it. */
    method DeleteAllInstances(node: nat, table: nat, inst: Instance)
      requires Valid() && At(tree, node, inst) && ChildOf(tree, node, table) && tree.nodes[table].kind == MultiInstance
      modifies this
      ensures Valid()
      ensures Deleted(tree, old(Now()), Now(), Subtree(old(instances), [table], inst))
      decreases |tree.nodes| - table, 1
    {
      ghost var was := Now();
      var numbers := NumbersIn(instances, tree.nodes[table].tables, inst.numbers);
      var todo := numbers;
      assert Descends(tree.nodes, table);
      EmptyEntries(tree, was, table, inst);
      while todo != {}
        invariant todo <= numbers && Valid()
        invariant Deleted(tree, was, Now(), Entries(was.instances, table, inst, numbers - todo))
        decreases |todo|
      {
        var n :| n in todo;
        ghost var done := numbers - todo;
        DeleteEntry(node, table, inst, n, was, done);
        todo := todo - {n};
        assert numbers - todo == done + {n};
      }
      assert numbers - todo == numbers;
      AllEntries(tree, was, Now(), node, table, inst);
    }

    /** Deletes one instance of a table, after what is nested in it; `done` have been deleted since `was`. */
    method DeleteEntry(node: nat, table: nat, inst: Instance, n: nat, ghost was: World, ghost done: set<nat>)
      requires Valid() && ValidSet(tree, was.instances)
      requires At(tree, node, inst) && ChildOf(tree, node, table) && tree.nodes[table].kind == MultiInstance
      requires Deleted(tree, was, Now(), Entries(was.instances, table, inst, done))
      requires n in NumbersIn(was.instances, tree.nodes[table].tables, inst.numbers) && n !in done
      modifies this
      ensures Valid()
      ensures Deleted(tree, was, Now(), Entries(was.instances, table, inst, done + {n}))
      decreases |tree.nodes| - table, 0, 1
    {
      ghost var before := Now();
      ghost var cs := tree.nodes[table].children;
      assert Descends(tree.nodes, table);
      var entry := Instance(tree.nodes[table].tables, inst.numbers + [n]);
      DeleteChildParams(table, entry);
      ghost var below := Now();
      EntryRemoved(tree, before.instances, below, table, entry);
      instances := Outside(instances, entry);
      deletions := deletions + [entry];
      EntryParts(tree, node, was.instances, before.instances, table, inst, done, n);
      DeletedTogether(tree, before, below, Now(), Subtree(before.instances, cs, entry), One(table, entry.numbers),
                      Entries(was.instances, table, inst, {n}));
      MoreEntries(tree, was.instances, table, inst, done, n);
      DeletedTogether(tree, was, before, Now(), Entries(was.instances, table, inst, done),
                      Entries(was.instances, table, inst, {n}), Entries(was.instances, table, inst, done + {n}));
    }

    /** Writes the values of all parameters of a new instance, nested tables aside. */
    method AddChildParams(node: nat, inst: Instance, values: Values) returns (ok: bool)
      requires Ok(tree) && At(tree, node, inst)
      modifies this`rows
      ensures ok <==> Supplied(tree, tree.nodes[node].children, inst, values)
      ensures ok ==> RowsAdded(tree, old(rows), rows, tree.nodes[node].children, inst, values)
      ensures OthersKept(tree, old(rows), rows, tree.nodes[node].children, inst)
      decreases |tree.nodes| - node, 0
    {
      ghost var cs := tree.nodes[node].children;
      ghost var was := rows;
      assert Listed(tree.nodes, node);
      assert cs[..0] == [];
      var i := 0;
      while i < |tree.nodes[node].children|
        invariant i <= |cs| && RowsAdded(tree, was, rows, cs[..i], inst, values)
      {
        ghost var before := rows;
        var child := tree.nodes[node].children[i];
        assert cs[..i + 1] == cs[..i] + [child];
        SiblingsDiffer(tree, node, i);
        ok := AddChild(node, child, inst, values);
        OwnOneMore(tree, cs[..i], child, inst);
        if !ok {
          OwnAmong(tree, cs, i + 1, inst);
          return;
        }
        AddedTogether(tree, was, before, rows, cs[..i], child, inst, values);
        i := i + 1;
      }
      assert cs[..i] == cs;
      return true;
    }

    method AddChild(node: nat, child: nat, inst: Instance, values: Values) returns (ok: bool)
      requires Ok(tree) && At(tree, node, inst) && ChildOf(tree, node, child) && node < child
      modifies this`rows
      ensures ok <==> Supplied(tree, [child], inst, values)
      ensures ok ==> RowsAdded(tree, old(rows), rows, [child], inst, values)
      ensures OthersKept(tree, old(rows), rows, [child], inst)
      decreases |tree.nodes| - child, 1
    {
      assert Descends(tree.nodes, child);
      ghost var was := rows;
      match tree.nodes[child].kind {
        case DbReadOnly | DbReadWrite | DbReadOnlyAuto | DbReadWriteAuto | DbSecure =>
          LeafAdded(tree, was, node, child, inst, values);
          if values(child).None? {
            return false;
          }
          var text := FormInstanceString(inst.numbers);
          rows := rows[Key(tree.nodes[child].hash, text) := values(child).value];
          return true;
        case SingleInstance =>
          ok := AddChildParams(child, inst, values);
          ObjectAdded(tree, was, rows, node, child, inst, values);
        case MultiInstance =>
          TableAdded(tree, was, node, child, inst, values);
          return true;
        case _ =>
          LeafAdded(tree, was, node, child, inst, values);
          return true;
      }
    }

    /** One more than the highest number in a table. */
    method GetNextInstance(tables: seq<nat>, numbers: seq<nat>) returns (n: nat)
      ensures n > 0 && forall e :: e in instances && IsEntry(e, tables, numbers) ==> e.numbers[|numbers|] < n
      ensures n == 1 || exists e :: e in instances && IsEntry(e, tables, numbers) && e.numbers[|numbers|] == n - 1
    {
      n := 1;
      var todo := instances;
      while todo != {}
        invariant todo <= instances && n > 0
        invariant forall e :: e in instances - todo && IsEntry(e, tables, numbers) ==> e.numbers[|numbers|] < n
        invariant n == 1 || exists e :: e in instances && IsEntry(e, tables, numbers) && e.numbers[|numbers|] == n - 1
        decreases |todo|
      {
        var e :| e in todo;
        if IsEntry(e, tables, numbers) && e.numbers[|numbers|] >= n {
          n := e.numbers[|numbers|] + 1;
        }
        todo := todo - {e};
      }
    }

    /** Adds an instance to a table, under the number asked for or the next free one. `hooksOk` is the answer of
        the vendor hooks. The attempt is made exactly if the number is not taken, the instance around the table exists
        and the hooks consent, and succeeds exactly if every parameter of the new instance has a value. */
    method AddInstance(table: nat, parent: Instance, number: Option<nat>, mayExist: bool, hooksOk: bool, values: Values)
      returns (r: Added)
      requires Valid() && table < |tree.nodes| && tree.nodes[table].kind == MultiInstance
      requires |parent.tables| == |parent.numbers| && tree.nodes[table].tables == parent.tables + [table]
      modifies this`rows, this`instances
      ensures Valid()
      ensures match r
              case Existing => instances == old(instances) && rows == old(rows)
              case Refused => instances == old(instances) && rows == old(rows)
              case Failed(n) =>
                var entry := Entry(tree, table, parent, n);
                && instances == old(instances)
                && OthersKept(tree, old(rows), rows, tree.nodes[table].children, entry)
                && Chosen(old(instances), tree.nodes[table].tables, parent.numbers, number, n)
              case Created(n) =>
                var entry := Entry(tree, table, parent, n);
                && instances == old(instances) + {entry}
                && RowsAdded(tree, old(rows), rows, tree.nodes[table].children, entry, values)
                && (parent.numbers == [] || Present(old(instances), parent.tables, parent.numbers))
                && Chosen(old(instances), tree.nodes[table].tables, parent.numbers, number, n)
      ensures r == Existing <==> Taken(old(instances), tree.nodes[table].tables, parent.numbers, number) && mayExist
      ensures r.Created? || r.Failed? <==>
                && !Taken(old(instances), tree.nodes[table].tables, parent.numbers, number)
                && (parent.numbers == [] || Present(old(instances), parent.tables, parent.numbers)) && hooksOk
      ensures r.Created? || r.Failed? ==>
                (r.Created? <==> Supplied(tree, tree.nodes[table].children, Entry(tree, table, parent, r.number), values))
    {
      var tables := tree.nodes[table].tables;
      var n;
      if number.None? {
        n := GetNextInstance(tables, parent.numbers);
      } else {
        n := number.value;
        if Present(instances, tables, parent.numbers + [n]) {
          return if mayExist then Existing else Refused;
        }
      }
      if parent.numbers != [] && !Present(instances, parent.tables, parent.numbers) {
        return Refused;
      }
      if !hooksOk {
        return Refused;
      }
      var entry := Instance(tables, parent.numbers + [n]);
      assert tables[|tables| - 1] == table;
      FreshEntry(instances, tables, parent.numbers, n);
      ghost var was := instances;
      PresentMeansEntry(tree, was, entry);
      AddingKeepsClosed(tree, was, table, parent, n);
      instances := instances + {entry};
      var ok := AddChildParams(table, entry, values);
      if !ok {
        OutAgain(tree, was, entry);
        instances := Outside(instances, entry);
        return Failed(n);
      }
      return Created(n);
    }

    /** Deletes an instance with everything that belongs to it. */
    method DeleteInstance(node: nat, inst: Instance, mayBeMissing: bool, hooksOk: bool) returns (ok: bool)
      requires Valid() && At(tree, node, inst) && inst.numbers != []
      modifies this
      ensures Valid()
      ensures if Present(old(instances), inst.tables, inst.numbers) && tree.nodes[node].kind == MultiInstance && hooksOk
              then ok && InstanceDeleted(tree, old(Now()), Now(), node, inst)
              else Now() == old(Now()) && ok == (!Present(old(instances), inst.tables, inst.numbers) && mayBeMissing)
    {
      if !Present(instances, inst.tables, inst.numbers) {
        return mayBeMissing;
      }
      if tree.nodes[node].kind != MultiInstance || !hooksOk {
        return false;
      }
      deletions := deletions + [inst];
      DeleteChildParams(node, inst);
      ScopeWithin(tree, old(instances), instances, node, inst);
      instances := Outside(instances, inst);
      return true;
    }
  }

  datatype Added = Existing | Refused | Failed(number: nat) | Created(number: nat)

  /** `e` is an entry of the table itself, not one nested in it. */
  predicate IsEntry(e: Instance, tables: seq<nat>, numbers: seq<nat>) {
    e.tables == tables && numbers <= e.numbers && |e.numbers| == |numbers| + 1
  }

  /** A number is asked for, and the table has an instance of that number already. */
  ghost predicate Taken(instances: set<Instance>, tables: seq<nat>, numbers: seq<nat>, number: Option<nat>) {
    number.Some? && Present(instances, tables, numbers + [number.value])
  }

  /** The number asked for if it is free, or else one more than the highest in the table. */
  ghost predicate Chosen(instances: set<Instance>, tables: seq<nat>, numbers: seq<nat>, number: Option<nat>, n: nat) {
    if number.Some? then n == number.value && !Present(instances, tables, numbers + [n])
    else
      && n > 0 && (forall e :: e in instances && IsEntry(e, tables, numbers) ==> e.numbers[|numbers|] < n)
      && (n == 1 || exists e :: e in instances && IsEntry(e, tables, numbers) && e.numbers[|numbers|] == n - 1)
  }

  lemma {:induction false} FreshEntry(instances: set<Instance>, tables: seq<nat>, numbers: seq<nat>, n: nat)
    ensures (forall e :: e in instances && IsEntry(e, tables, numbers) ==> e.numbers[|numbers|] < n) ==>
              Instance(tables, numbers + [n]) !in instances
  {
    var entry := Instance(tables, numbers + [n]);
    assert entry.numbers[|numbers|] == n && IsEntry(entry, tables, numbers);
  }

  /** Everything in scope below an instance lies within it. */
  lemma {:induction false} ScopeWithin(t: Tree, w: set<Instance>, v: set<Instance>, node: nat, inst: Instance)
    requires WellFormed(t) && At(t, node, inst) && InstancesDeleted(t, w, v, Subtree(w, t.nodes[node].children, inst))
    ensures Outside(v, inst) == Outside(w, inst)
  {
    var s := Subtree(w, t.nodes[node].children, inst);
    forall e | InstanceInScope(t, s, e) ensures Within(e, inst.tables, inst.numbers) {
      var last := e.tables[|e.tables| - 1];
      BelowThroughChild(t, node, last);
      AboveKeepsTables(t, node, last);
    }
  }

  /** The instance is notified, everything in it is deleted and notified, and nothing of it is left. */
  ghost predicate InstanceDeleted(t: Tree, w: World, v: World, node: nat, inst: Instance)
    requires Indexed(t) && node < |t.nodes|
  {
    var s := Subtree(w.instances, t.nodes[node].children, inst);
    && RowsDeleted(t, w.rows, v.rows, s)
    && v.instances == Outside(w.instances, inst)
    && DeletionsNoted(t, w.deletions + [inst], v.deletions, s)
  }

  lemma {:induction false} OwnAmong(t: Tree, cs: seq<nat>, i: nat, inst: Instance)
    requires Indexed(t) && i <= |cs|
    ensures forall q: nat :: Own(t, cs[..i], inst, q) ==> Own(t, cs, inst, q)
    ensures forall key :: OwnRow(t, cs[..i], inst, key) ==> OwnRow(t, cs, inst, key)
  {
    forall q: nat | Beneath(t, cs[..i], q) ensures Beneath(t, cs, q) {
      var j :| 0 <= j < |cs[..i]| && Above(t, cs[..i][j], q);
      assert cs[j] == cs[..i][j];
    }
  }

  lemma {:induction false} SiblingsDiffer(t: Tree, node: nat, i: nat)
    requires WellFormed(t) && node < |t.nodes| && i < |t.nodes[node].children|
    ensures var cs := t.nodes[node].children;
            ChildrenOf(t, node, cs[..i]) && ChildOf(t, node, cs[i]) && node < cs[i] && cs[i] !in cs[..i]
  {
    assert Listed(t.nodes, node);
  }

  lemma {:induction false} EmptyEntries(t: Tree, w: World, table: nat, inst: Instance)
    requires Ok(t)
    ensures Deleted(t, w, w, Entries(w.instances, table, inst, {}))
  {
    NothingDeleted(t, w, Entries(w.instances, table, inst, {}));
  }
}
