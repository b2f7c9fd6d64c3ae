/** The database rows that hold parameters: a row is found under the hash of the parameter's schema path
    and the string of its instance numbers. */
module DatabaseKeys {
  import opened Options
  import opened InstanceNumbers
  import opened SchemaPaths
  import opened SchemaTree
  import opened SchemaRegistration
  import opened SchemaLookup
  import opened SchemaStore

  datatype Key = Key(hash: nat, instances: string)

  type Database = map<Key, string>

  predicate IsParam(k: Kind) {
    !IsObject(k) && k != SyncOperation && k != AsyncOperation && k != Event
  }

  /** What the commands that set and get database values accept; this goes beyond the kinds whose rows the
      data model writes and deletes. */
  predicate IsDbParam(k: Kind) {
    || k == DbReadWrite || k == DbReadOnly || k == DbReadOnlyAuto || k == DbReadWriteAuto || k == DbSecure
    || k == ConstantValue || k == VendorReadOnly || k == VendorReadWrite
  }

  /** Old hashes and the hashes that replace them. */
  type Migrations = map<nat, nat>

  function MigratedHash(m: Migrations, hash: nat): nat {
    if hash in m then m[hash] else hash
  }

  function FormDbFromPath(t: Tree, m: Migrations, path: string): Option<Key>
    requires Indexed(t)
  {
    match ScanFrom(path, 0)
    case TooMany => None
    case Scanned(schema, numbers) =>
      match NodeOf(t, schema)
      case None => None
      case Some(id) =>
        var moved := Find(t, MigratedHash(m, t.nodes[id].hash));
        if moved.None? || !IsParam(t.nodes[moved.value].kind) || !IsDbParam(t.nodes[moved.value].kind) then None
        else Some(Key(t.nodes[moved.value].hash, InstanceText(numbers)))
  }

  function FormPathFromDb(t: Tree, key: Key): Option<string>
    requires Indexed(t)
  {
    match Find(t, key.hash)
    case None => None
    case Some(id) =>
      match ParseInstances(key.instances)
      case None => None
      case Some(numbers) =>
        if |numbers| != |t.nodes[id].tables| then None else Instantiate(t.nodes[id].path, numbers)
  }

  /** Where the rows of a node are kept: at the node itself, or at the one it has been migrated to. */
  predicate KeptAt(t: Tree, m: Migrations, id: nat, kept: nat)
    requires id < |t.nodes|
  {
    kept < |t.nodes| && if t.nodes[id].hash in m then t.nodes[kept].hash == m[t.nodes[id].hash] else kept == id
  }

  lemma {:induction false} KeyOfScanned(t: Tree, m: Migrations, id: nat, numbers: seq<nat>, path: string)
    requires Indexed(t) && id < |t.nodes| && ScanFrom(path, 0) == Scanned(t.nodes[id].path, numbers)
    ensures forall kept: nat :: KeptAt(t, m, id, kept) ==>
              FormDbFromPath(t, m, path) ==
                if IsDbParam(t.nodes[kept].kind) then Some(Key(t.nodes[kept].hash, InstanceText(numbers))) else None
    ensures (forall kept: nat :: !KeptAt(t, m, id, kept)) ==> FormDbFromPath(t, m, path) == None
  {
    FindExact(t, t.nodes[id].hash);
    FindExact(t, MigratedHash(m, t.nodes[id].hash));
    forall kept: nat | KeptAt(t, m, id, kept)
      ensures Find(t, MigratedHash(m, t.nodes[id].hash)) == Some(kept)
    {
    }
    if Find(t, MigratedHash(m, t.nodes[id].hash)).Some? {
      assert KeptAt(t, m, id, Find(t, MigratedHash(m, t.nodes[id].hash)).value);
    }
  }

  /** The key of a parameter that has been migrated is that of the same instance of the parameter it has been migrated
      to, and leads to the path of that one. There is none if the new parameter does not exist or is not kept in the
      database. */
  lemma {:induction false} MigratedKey(t: Tree, m: Migrations, id: nat, numbers: seq<nat>, kept: nat)
    requires Ok(t) && GoodTree(t) && id < |t.nodes| && |numbers| == |t.nodes[id].tables| <= MAX_ORDER
    requires KeptAt(t, m, id, kept) && IsDbParam(t.nodes[kept].kind)
    ensures var path, path' := Instantiate(t.nodes[id].path, numbers), Instantiate(t.nodes[kept].path, numbers);
            && path.Some?
            && var key := FormDbFromPath(t, m, path.value);
               && key == Some(Key(t.nodes[kept].hash, InstanceText(numbers)))
               && FormPathFromDb(t, key.value) == path'
               && (path'.Some? <==> |t.nodes[kept].tables| == |t.nodes[id].tables|)
  {
    NodeIsScanned(t, id, numbers);
    KeyOfScanned(t, m, id, numbers, Instantiate(t.nodes[id].path, numbers).value);
    InstancesRoundTrip(numbers);
    FindExact(t, t.nodes[kept].hash);
    KeptAsPath(t, kept, numbers);
  }

  lemma {:induction false} KeptAsPath(t: Tree, kept: nat, numbers: seq<nat>)
    requires Ok(t) && GoodTree(t) && kept < |t.nodes| && |numbers| <= MAX_ORDER
    ensures Instantiate(t.nodes[kept].path, numbers).Some? <==> |t.nodes[kept].tables| == |numbers|
  {
    InstantiateNeeds(t.nodes[kept].path, numbers);
    OrderIsMarkers(t, kept);
  }

  /** The path that a database parameter was stored under is formed again from its key. */
  lemma {:induction false} PathToKeyToPath(t: Tree, m: Migrations, id: nat, numbers: seq<nat>)
    requires Ok(t) && GoodTree(t) && id < |t.nodes| && |numbers| == |t.nodes[id].tables| <= MAX_ORDER
    requires t.nodes[id].hash !in m
    ensures var path := Instantiate(t.nodes[id].path, numbers);
            && path.Some?
            && FormDbFromPath(t, m, path.value) ==
                 (if IsDbParam(t.nodes[id].kind) then Some(Key(t.nodes[id].hash, InstanceText(numbers))) else None)
            && FormPathFromDb(t, Key(t.nodes[id].hash, InstanceText(numbers))) == path
  {
    NodeIsScanned(t, id, numbers);
    KeyOfScanned(t, m, id, numbers, Instantiate(t.nodes[id].path, numbers).value);
    InstancesRoundTrip(numbers);
    FindExact(t, t.nodes[id].hash);
  }

  /** No two instances of database parameters share a row. */
  lemma {:induction false} KeysDiffer(t: Tree, a: nat, b: nat, xs: seq<nat>, ys: seq<nat>)
    requires Indexed(t) && a < |t.nodes| && b < |t.nodes|
    ensures Key(t.nodes[a].hash, InstanceText(xs)) == Key(t.nodes[b].hash, InstanceText(ys)) <==> a == b && xs == ys
  {
    FindExact(t, t.nodes[a].hash);
    InstanceTextInjective(xs, ys);
  }
}
