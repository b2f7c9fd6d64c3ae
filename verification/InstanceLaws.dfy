/** What adding and deleting instances guarantee together. */
module InstanceLaws {
  import opened Options
  import opened InstanceNumbers
  import opened SchemaTree
  import opened SchemaLookup
  import opened DatabaseKeys
  import opened InstanceSet
  import opened InstanceScopes
  import opened InstanceCascade

  /** Deleting an instance notifies exactly the instances that are removed, each once, the deleted one first. */
  lemma {:induction false} EachRemovalNotifiedOnce(t: Tree, w: World, v: World, node: nat, inst: Instance)
    requires Ok(t) && ValidSet(t, w.instances) && Closed(w.instances)
    requires At(t, node, inst) && t.nodes[node].kind == MultiInstance && inst in w.instances
    requires InstanceDeleted(t, w, v, node, inst)
    ensures w.deletions <= v.deletions
    ensures var d := v.deletions[|w.deletions|..];
            && d != [] && d[0] == inst && Distinct(d)
            && forall x :: x in d <==> x in w.instances && x !in v.instances
  {
    var cs := t.nodes[node].children;
    var s := Subtree(w.instances, cs, inst);
    var d, below := v.deletions[|w.deletions|..], v.deletions[|w.deletions + [inst]|..];
    assert Descends(t.nodes, node);
    assert v.deletions[..|w.deletions| + 1] == w.deletions + [inst];
    assert w.deletions == v.deletions[..|w.deletions|];
    assert d == [inst] + below;
    forall x ensures x in below <==> x != inst && x in w.instances && Within(x, inst.tables, inst.numbers) {
      ScopeBelow(t, w.instances, node, inst, x);
    }
    forall j, k | 0 <= j < k < |d| ensures d[j] != d[k] {
      assert d[k] == below[k - 1];
      if j > 0 {
        assert d[j] == below[j - 1];
      } else {
        assert d[k] in below;
      }
    }
    assert Within(inst, inst.tables, inst.numbers);
  }

  lemma {:induction false} ScopeBelow(t: Tree, instances: set<Instance>, node: nat, inst: Instance, x: Instance)
    requires Ok(t) && ValidSet(t, instances) && Closed(instances)
    requires At(t, node, inst) && t.nodes[node].kind == MultiInstance && ValidInstance(t, inst)
    ensures InstanceInScope(t, Subtree(instances, t.nodes[node].children, inst), x) <==>
              x != inst && x in instances && Within(x, inst.tables, inst.numbers)
  {
    var cs := t.nodes[node].children;
    assert Descends(t.nodes, node);
    NotBeneathItself(t, node);
    if InstanceInScope(t, Subtree(instances, cs, inst), x) {
      var last := x.tables[|x.tables| - 1];
      BelowThroughChild(t, node, last);
      AboveKeepsTables(t, node, last);
      PresentMeansEntry(t, instances, x);
    }
    if x in instances && Within(x, inst.tables, inst.numbers) {
      WithinEntry(t, instances, node, inst, x);
    }
  }

  lemma {:induction false} NotBeneathItself(t: Tree, node: nat)
    requires WellFormed(t) && node < |t.nodes|
    ensures !Beneath(t, t.nodes[node].children, node)
  {
    var cs := t.nodes[node].children;
    if Beneath(t, cs, node) {
      var j :| 0 <= j < |cs| && Above(t, cs[j], node);
      assert Listed(t.nodes, node);
      AboveIsSmaller(t, cs[j], node);
    }
  }

  // ---------------------------------------------------------------------------------------
  // Adding an instance and deleting it again.

  lemma {:induction false} OnlyOwnRows(t: Tree, instances: set<Instance>, node: nat, entry: Instance, key: Key)
    requires Ok(t) && At(t, node, entry) && !Present(instances, entry.tables, entry.numbers)
    ensures RowInScope(t, Subtree(instances + {entry}, t.nodes[node].children, entry), key) <==>
            OwnRow(t, t.nodes[node].children, entry, key)
  {
    var d := Decode(t, key);
    if d.Some? && d.value.node < |t.nodes| {
      var q, l := d.value.node, d.value.numbers;
      BelowThroughChild(t, node, q);
      if Beneath(t, t.nodes[node].children, q) {
        AboveKeepsTables(t, node, q);
        if |l| == |t.nodes[q].tables| && entry.numbers <= l && Present(instances + {entry}, t.nodes[q].tables, l) {
          var e :| e in instances + {entry} && Within(e, t.nodes[q].tables, l);
          assert Within(e, entry.tables, entry.numbers);
        }
      }
    }
  }

  /** Adding an instance that did not exist and deleting it again restores the instances, and restores the
      rows exactly if there was no row of that instance before. */
  lemma {:induction false} AddThenDelete(t: Tree, w: World, v: World, u: World, node: nat, entry: Instance, values: Values)
    requires Ok(t) && ValidSet(t, w.instances) && At(t, node, entry)
    requires !Present(w.instances, entry.tables, entry.numbers)
    requires v.instances == w.instances + {entry}
    requires RowsAdded(t, w.rows, v.rows, t.nodes[node].children, entry, values)
    requires InstanceDeleted(t, v, u, node, entry)
    ensures u.instances == w.instances
    ensures u.rows == w.rows <==> forall key :: key in w.rows ==> !OwnRow(t, t.nodes[node].children, entry, key)
  {
    assert u.instances == w.instances by {
      forall e | e in w.instances ensures !Within(e, entry.tables, entry.numbers) {
      }
      assert Within(entry, entry.tables, entry.numbers);
    }
    forall key ensures key in u.rows <==> key in w.rows && !OwnRow(t, t.nodes[node].children, entry, key) {
      OnlyOwnRows(t, w.instances, node, entry, key);
    }
  }

  /** Rows that can be set from the command line but are not among those the data model stores survive. */
  lemma {:induction false} SettableRowsSurvive(t: Tree, w: World, v: World, node: nat, inst: Instance, q: nat, l: seq<nat>)
    requires Ok(t) && At(t, node, inst) && InstanceDeleted(t, w, v, node, inst)
    requires q < |t.nodes| && IsDbParam(t.nodes[q].kind) && RowKey(t, q, l) in w.rows
    ensures RowKey(t, q, l) in v.rows <==>
              !(Stored(t.nodes[q].kind) && Hit(t, w.instances, t.nodes[node].children, inst, q, l))
  {
    DecodeExact(t, RowKey(t, q, l), q, l);
  }
}
