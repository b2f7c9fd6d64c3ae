/** What holds of the data model after any registrations: the results about single trees, for every tree that
    the agent can reach from its two root nodes. */
module SchemaRuns {
  import opened Options
  import opened InstanceNumbers
  import opened SchemaPaths
  import opened SchemaTree
  import opened SchemaRegistration
  import opened SchemaLookup
  import opened SchemaStore
  import opened DatabaseKeys

  function After(requests: seq<Request>): Tree
    requires GoodRequests(requests)
  {
    InitialOk();
    RegisterAll(InitialTree(), requests)
  }

  lemma {:induction false} RootNames()
    ensures GoodName("Device") && GoodName("Internal")
  {
  }

  lemma {:induction false} GoodPair(t: Tree, a: string, b: string)
    requires t.nodes == [RootNode(a), RootNode(b)] && GoodName(a) && GoodName(b)
    ensures GoodTree(t)
  {
    forall id | 0 <= id < |t.nodes| ensures GoodName(t.nodes[id].name) {
      assert t.nodes[id].name == if id == 0 then a else b;
    }
  }

  lemma {:induction false} GoodRoots()
    ensures GoodTree(InitialTree())
  {
    RootNames();
    GoodPair(InitialTree(), "Device", "Internal");
  }

  lemma {:induction false} AfterIsGood(requests: seq<Request>)
    requires GoodRequests(requests)
    ensures Ok(After(requests)) && GoodTree(After(requests))
  {
    InitialOk();
    GoodRoots();
    RegisterAllKeeps(InitialTree(), requests);
  }

  /** After any registrations, every node is found by every instance of its path. */
  lemma {:induction false} NodesAreFound(requests: seq<Request>, id: nat, numbers: seq<nat>)
    requires GoodRequests(requests) && id < |After(requests).nodes|
    requires |numbers| == |After(requests).nodes[id].tables| <= MAX_ORDER
    ensures Ok(After(requests))
    ensures var t := After(requests);
            var path := Instantiate(t.nodes[id].path, numbers);
            path.Some? && GetNode(t, path.value) == Found(id, numbers, true)
  {
    AfterIsGood(requests);
    NodeIsFound(After(requests), id, numbers);
  }

  /** So is every table by its path without the last number, exactly if no other path has the same
      hash as that path. */
  lemma {:induction false} TablesAreFound(requests: seq<Request>, id: nat, numbers: seq<nat>)
    requires GoodRequests(requests) && ROOTS <= id < |After(requests).nodes|
    requires After(requests).nodes[id].kind == MultiInstance
    requires |numbers| + 1 == |After(requests).nodes[id].tables| <= MAX_ORDER
    ensures Ok(After(requests)) && After(requests).nodes[id].parent < id
    ensures var t := After(requests);
            var path := Instantiate(TablePath(t, id), numbers);
            && path.Some?
            && (GetNode(t, path.value) == Found(id, numbers, false) <==> Unclaimed(t, id))
  {
    AfterIsGood(requests);
    TableIsFound(After(requests), id, numbers);
  }

  /** Different nodes have different paths: here their hashes differ already, `PathsDiffer` shows it without them. */
  lemma {:induction false} PathsTellApart(requests: seq<Request>, a: nat, b: nat)
    requires GoodRequests(requests) && a < |After(requests).nodes| && b < |After(requests).nodes|
    ensures After(requests).nodes[a].path == After(requests).nodes[b].path <==> a == b
  {
    AfterIsGood(requests);
    PathsDiffer(After(requests), a, b);
  }

  /** The order of every node is the number of instances in its path. */
  lemma {:induction false} OrdersCount(requests: seq<Request>, id: nat)
    requires GoodRequests(requests) && id < |After(requests).nodes|
    ensures CountMarkers(After(requests).nodes[id].path) == |After(requests).nodes[id].tables|
  {
    AfterIsGood(requests);
    OrderIsMarkers(After(requests), id);
  }

  /** Every instance of a parameter that has not been renamed has a database key exactly if the parameter is one of
      the database, and the key leads back to the path. */
  lemma {:induction false} KeysLeadBack(requests: seq<Request>, m: Migrations, id: nat, numbers: seq<nat>)
    requires GoodRequests(requests) && id < |After(requests).nodes|
    requires |numbers| == |After(requests).nodes[id].tables| <= MAX_ORDER && After(requests).nodes[id].hash !in m
    ensures Ok(After(requests))
    ensures var t := After(requests);
            var path := Instantiate(t.nodes[id].path, numbers);
            && path.Some?
            && FormDbFromPath(t, m, path.value) ==
                 (if IsDbParam(t.nodes[id].kind) then Some(Key(t.nodes[id].hash, InstanceText(numbers))) else None)
            && FormPathFromDb(t, Key(t.nodes[id].hash, InstanceText(numbers))) == path
  {
    AfterIsGood(requests);
    PathToKeyToPath(After(requests), m, id, numbers);
  }

  /** Every instance of a parameter that has been renamed has the key of the same instance of the new parameter if that
      is one of the database, and none otherwise. */
  lemma {:induction false} RenamedKeysLeadOn(requests: seq<Request>, m: Migrations, id: nat, numbers: seq<nat>, kept: nat)
    requires GoodRequests(requests) && id < |After(requests).nodes| && kept < |After(requests).nodes|
    requires |numbers| == |After(requests).nodes[id].tables| == |After(requests).nodes[kept].tables| <= MAX_ORDER
    requires After(requests).nodes[id].hash in m && m[After(requests).nodes[id].hash] == After(requests).nodes[kept].hash
    ensures Ok(After(requests))
    ensures var t := After(requests);
            var path := Instantiate(t.nodes[id].path, numbers);
            && path.Some?
            && FormDbFromPath(t, m, path.value) ==
                 (if IsDbParam(t.nodes[kept].kind) then Some(Key(t.nodes[kept].hash, InstanceText(numbers))) else None)
            && FormPathFromDb(t, Key(t.nodes[kept].hash, InstanceText(numbers))) == Instantiate(t.nodes[kept].path, numbers)
  {
    AfterIsGood(requests);
    var t := After(requests);
    NodeIsScanned(t, id, numbers);
    KeyOfScanned(t, m, id, numbers, Instantiate(t.nodes[id].path, numbers).value);
    InstancesRoundTrip(numbers);
    FindExact(t, t.nodes[kept].hash);
  }
}
