/** How the scope of a deletion falls apart: sibling by sibling, and instance by instance of a table. */
module InstanceScopes {
  import opened SchemaTree
  import opened SchemaLookup
  import opened DatabaseKeys
  import opened InstanceSet

  /** The instance stands at `node`: the tables up to the node are its tables. */
  predicate At(t: Tree, node: nat, inst: Instance) {
    node < |t.nodes| && inst.tables == t.nodes[node].tables && |inst.tables| == |inst.numbers|
  }

  predicate ChildOf(t: Tree, node: nat, c: nat) {
    node < |t.nodes| && ROOTS <= c < |t.nodes| && t.nodes[c].parent == node
  }

  /** An entry within something hit below `c` belongs to a table below `c`. */
  lemma {:induction false} EntryBelow(t: Tree, node: nat, c: nat, q: nat, e: Instance)
    requires WellFormed(t) && ChildOf(t, node, c) && q < |t.nodes| && Above(t, c, q)
    requires ValidInstance(t, e) && t.nodes[q].tables <= e.tables
    requires |t.nodes[q].tables| > |t.nodes[node].tables|
    ensures Above(t, c, e.tables[|e.tables| - 1])
  {
    var last := e.tables[|e.tables| - 1];
    var k := |t.nodes[q].tables| - 1;
    assert [c][0] == c;
    assert t.nodes[last].tables[k] == t.nodes[q].tables[k];
    var s := t.nodes[q].tables[k];
    TableIsAbove(t, last, k);
    TableIsAbove(t, q, k);
    AboveIsChain(t, c, s, q);
    if Above(t, c, s) {
      AboveTransitive(t, c, s, last);
    } else {
      assert Descends(t.nodes, c);
      AboveKeepsTables(t, s, node);
    }
  }

  /** Deleting below some children leaves what is hit below another child as it was. */
  lemma {:induction false} SiblingUntouched(t: Tree, node: nat, instances: set<Instance>, instances': set<Instance>,
                                            cs: seq<nat>, c: nat, inst: Instance, q: nat, l: seq<nat>)
    requires WellFormed(t) && ValidSet(t, instances) && ChildrenOf(t, node, cs) && ChildOf(t, node, c) && c !in cs
    requires At(t, node, inst) && InstancesDeleted(t, instances, instances', Subtree(instances, cs, inst))
    ensures Hit(t, instances', [c], inst, q, l) <==> Hit(t, instances, [c], inst, q, l)
  {
    if Hit(t, instances, [c], inst, q, l) && |l| > |inst.numbers| {
      var e :| e in instances && Within(e, t.nodes[q].tables, l);
      assert [c][0] == c && Above(t, c, q);
      EntryBelow(t, node, c, q, e);
      var last := e.tables[|e.tables| - 1];
      if Beneath(t, cs, last) {
        var j :| 0 <= j < |cs| && Above(t, cs[j], last);
        OneChildAbove(t, c, cs[j], last);
      }
      assert e in instances';
    }
  }

  /** One more child. */
  lemma {:induction false} NextChild(t: Tree, node: nat, instances: set<Instance>, instances': set<Instance>,
                                     cs: seq<nat>, c: nat, inst: Instance)
    requires WellFormed(t) && ValidSet(t, instances) && ChildrenOf(t, node, cs) && ChildOf(t, node, c) && c !in cs
    requires At(t, node, inst) && InstancesDeleted(t, instances, instances', Subtree(instances, cs, inst))
    ensures Parts(t, Subtree(instances, cs, inst), Subtree(instances', [c], inst), Subtree(instances, cs + [c], inst))
  {
    var all := cs + [c];
    forall q: nat, l: seq<nat>
      ensures Hit(t, instances, all, inst, q, l) <==> Hit(t, instances, cs, inst, q, l) || Hit(t, instances', [c], inst, q, l)
      ensures !(Hit(t, instances, cs, inst, q, l) && Hit(t, instances', [c], inst, q, l))
    {
      SiblingUntouched(t, node, instances, instances', cs, c, inst, q, l);
      BeneathOneMore(t, cs, c, q);
      if q < |t.nodes| && Beneath(t, cs, q) && Beneath(t, [c], q) {
        var j :| 0 <= j < |cs| && Above(t, cs[j], q);
        assert [c][0] == c;
        OneChildAbove(t, cs[j], c, q);
      }
    }
  }

  lemma {:induction false} BeneathOneMore(t: Tree, cs: seq<nat>, c: nat, q: nat)
    ensures Beneath(t, cs + [c], q) <==> Beneath(t, cs, q) || Beneath(t, [c], q)
    ensures Beneath(t, [c], q) <==> Above(t, c, q)
  {
    var all := cs + [c];
    if Beneath(t, cs, q) {
      var j :| 0 <= j < |cs| && Above(t, cs[j], q);
      assert all[j] == cs[j];
    }
    if Above(t, c, q) {
      assert all[|cs|] == c && [c][0] == c;
    }
    if Beneath(t, all, q) {
      var j :| 0 <= j < |all| && Above(t, all[j], q);
      assert j < |cs| ==> all[j] == cs[j];
    }
  }

  /** Below a single-instance object the same instance goes on. */
  lemma {:induction false} ThroughObject(t: Tree, instances: set<Instance>, c: nat, inst: Instance, q: nat, l: seq<nat>)
    requires WellFormed(t) && c < |t.nodes|
    ensures Hit(t, instances, [c], inst, q, l) <==>
              Hit(t, instances, t.nodes[c].children, inst, q, l) ||
              (q == c && |l| == |t.nodes[c].tables| && inst.numbers <= l &&
               (|l| == |inst.numbers| || Present(instances, t.nodes[c].tables, l)))
  {
    BeneathOneMore(t, [], c, q);
    if q < |t.nodes| {
      BelowThroughChild(t, c, q);
    }
  }

  // ---------------------------------------------------------------------------------------
  // The instances of a table.

  /** The numbers under which entries exist in a table, or within it. */
  function NumbersIn(instances: set<Instance>, tables: seq<nat>, numbers: seq<nat>): set<nat> {
    set e | e in instances && Within(e, tables, numbers) && |e.numbers| > |numbers| :: e.numbers[|numbers|]
  }

  function Entry(t: Tree, c: nat, inst: Instance, n: nat): Instance
    requires c < |t.nodes|
  {
    Instance(t.nodes[c].tables, inst.numbers + [n])
  }

  lemma {:induction false} NumberPresent(t: Tree, instances: set<Instance>, tables: seq<nat>, numbers: seq<nat>, n: nat)
    requires ValidSet(t, instances)
    ensures n in NumbersIn(instances, tables, numbers) <==> Present(instances, tables, numbers + [n])
  {
    if n in NumbersIn(instances, tables, numbers) {
      var e :| e in instances && Within(e, tables, numbers) && |e.numbers| > |numbers| && e.numbers[|numbers|] == n;
      assert numbers + [n] <= e.numbers;
      assert Within(e, tables, numbers + [n]);
    }
    if Present(instances, tables, numbers + [n]) {
      var e :| e in instances && Within(e, tables, numbers + [n]);
      assert |numbers + [n]| <= |e.numbers| && e.numbers[..|numbers + [n]|] == numbers + [n];
      assert e.numbers[|numbers|] == (numbers + [n])[|numbers|] == n;
      assert numbers == e.numbers[..|numbers|];
      assert Within(e, tables, numbers);
    }
  }

  lemma {:induction false} PresentShorter(instances: set<Instance>, tables: seq<nat>, numbers: seq<nat>, more: seq<nat>, l: seq<nat>)
    requires Present(instances, more, l) && tables <= more && numbers <= l
    ensures Present(instances, tables, numbers)
  {
    var e :| e in instances && Within(e, more, l);
    assert Within(e, tables, numbers);
  }

  /** What is hit below a table is hit below one of its entries, or is the entry itself. */
  lemma {:induction false} ThroughEntry(t: Tree, node: nat, instances: set<Instance>, c: nat, inst: Instance, q: nat, l: seq<nat>)
    requires WellFormed(t) && ValidSet(t, instances) && ChildOf(t, node, c) && At(t, node, inst)
    requires t.nodes[c].kind == MultiInstance
    ensures Hit(t, instances, [c], inst, q, l) <==>
              && |l| > |inst.numbers|
              && var n := l[|inst.numbers|];
                 && n in NumbersIn(instances, t.nodes[c].tables, inst.numbers)
                 && ((q == c && l == Entry(t, c, inst, n).numbers) ||
                     Hit(t, instances, t.nodes[c].children, Entry(t, c, inst, n), q, l))
  {
    assert [c][0] == c;
    assert Descends(t.nodes, c);
    assert |t.nodes[c].tables| == |inst.numbers| + 1;
    ThroughObject(t, instances, c, inst, q, l);
    BeneathOneMore(t, [], c, q);
    if q < |t.nodes| {
      BelowThroughChild(t, c, q);
    }
    if q < |t.nodes| && Above(t, c, q) && |l| == |t.nodes[q].tables| {
      AboveKeepsTables(t, c, q);
      assert |l| > |inst.numbers|;
      EntryPresent(t, instances, t.nodes[c].tables, inst, q, l);
    }
  }

  lemma {:induction false} EntryPresent(t: Tree, instances: set<Instance>, tables: seq<nat>, inst: Instance, q: nat, l: seq<nat>)
    requires ValidSet(t, instances) && q < |t.nodes| && tables <= t.nodes[q].tables
    requires |t.nodes[q].tables| == |l| > |inst.numbers| && |tables| == |inst.numbers| + 1
    ensures var n := l[|inst.numbers|];
            inst.numbers <= l && Present(instances, t.nodes[q].tables, l) <==>
              && n in NumbersIn(instances, tables, inst.numbers) && inst.numbers + [n] <= l
              && (|l| == |inst.numbers| + 1 || Present(instances, t.nodes[q].tables, l))
  {
    var n := l[|inst.numbers|];
    NumberPresent(t, instances, tables, inst.numbers, n);
    if inst.numbers <= l {
      assert inst.numbers + [n] <= l;
      if Present(instances, t.nodes[q].tables, l) {
        PresentShorter(instances, tables, inst.numbers + [n], t.nodes[q].tables, l);
      }
    }
    if inst.numbers + [n] <= l {
      assert inst.numbers == (inst.numbers + [n])[..|inst.numbers|] == l[..|inst.numbers|];
    }
    if |l| == |inst.numbers| + 1 {
      assert inst.numbers <= l ==> l == inst.numbers + [n];
      assert t.nodes[q].tables == tables;
    }
  }

  /** Deleting some entries of a table leaves what is hit below another entry as it was. */
  lemma {:induction false} EntryUntouched(t: Tree, node: nat, instances: set<Instance>, instances': set<Instance>,
                                          c: nat, inst: Instance, done: set<nat>, n: nat, q: nat, l: seq<nat>)
    requires WellFormed(t) && ValidSet(t, instances) && ChildOf(t, node, c) && At(t, node, inst)
    requires InstancesDeleted(t, instances, instances', Entries(instances, c, inst, done)) && n !in done
    ensures Hit(t, instances', t.nodes[c].children, Entry(t, c, inst, n), q, l) <==>
            Hit(t, instances, t.nodes[c].children, Entry(t, c, inst, n), q, l)
  {
    if Hit(t, instances, t.nodes[c].children, Entry(t, c, inst, n), q, l) && |l| > |inst.numbers| + 1 {
      var e :| e in instances && Within(e, t.nodes[q].tables, l);
      assert e.numbers[..|l|] == l && l[..|inst.numbers| + 1] == inst.numbers + [n];
      assert e.numbers[|inst.numbers|] == l[|inst.numbers|] == (inst.numbers + [n])[|inst.numbers|];
      assert e in instances';
    }
  }
}
