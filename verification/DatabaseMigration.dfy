/** Moving the rows of a renamed parameter to the hash of its new path. */
module DatabaseMigration {
  import opened Options
  import opened InstanceNumbers
  import opened SchemaPaths
  import opened DatabaseKeys

  datatype Entry = Entry(instances: string, value: string)

  datatype Migration = Migration(oldPath: string, newPath: string, oldHash: nat, newHash: nat)

  /** The rows stored under a hash, in the order in which a query yields them. */
  ghost predicate Lists(rows: Database, hash: nat, entries: seq<Entry>) {
    && (forall i :: 0 <= i < |entries| ==>
          Key(hash, entries[i].instances) in rows && rows[Key(hash, entries[i].instances)] == entries[i].value)
    && (forall i, j :: 0 <= i < j < |entries| ==> entries[i].instances != entries[j].instances)
    && (forall s :: Key(hash, s) in rows ==> exists i :: 0 <= i < |entries| && entries[i].instances == s)
  }

  predicate Malformed(s: string) {
    ParseInstances(s).None?
  }

  /** As many numbers as both paths have tables. */
  predicate Fits(m: Migration, s: string) {
    var numbers := ParseInstances(s);
    && numbers.Some?
    && Instantiate(m.oldPath, numbers.value).Some? && Instantiate(m.newPath, numbers.value).Some?
  }

  lemma {:induction false} FitsByCount(m: Migration, s: string)
    ensures Fits(m, s) <==>
              ParseInstances(s).Some? && |ParseInstances(s).value| == CountMarkers(m.oldPath) == CountMarkers(m.newPath)
  {
    if ParseInstances(s).Some? {
      InstantiateNeeds(m.oldPath, ParseInstances(s).value);
      InstantiateNeeds(m.newPath, ParseInstances(s).value);
    }
  }

  /** The entries before the first malformed one. */
  function Readable(entries: seq<Entry>): (n: nat)
    ensures n <= |entries| && (n < |entries| ==> Malformed(entries[n].instances))
    ensures forall i :: 0 <= i < n ==> !Malformed(entries[i].instances)
  {
    if entries == [] || Malformed(entries[0].instances) then 0
    else
      assert forall i :: 0 < i < |entries| ==> entries[i] == entries[1..][i - 1];
      1 + Readable(entries[1..])
  }

  /** `s` is among the first `n` entries and fits. */
  predicate Moves(m: Migration, entries: seq<Entry>, n: nat, s: string)
    requires n <= |entries|
  {
    Fits(m, s) && exists i :: 0 <= i < n && entries[i].instances == s
  }

  /** What has become of the row of one key after the first `n` entries have been dealt with: it is deleted
      under the old hash after it has been stored under the new, so it is lost if the two are the same. */
  ghost predicate MovedAt(m: Migration, moves: bool, rows: Database, rows': Database, key: Key) {
    var old' := Key(m.oldHash, key.instances);
    if key.hash == m.oldHash && moves then
      key !in rows'
    else if key.hash == m.newHash && moves then
      key in rows' && old' in rows && rows'[key] == rows[old']
    else
      (key in rows' <==> key in rows) && (key in rows ==> rows'[key] == rows[key])
  }

  ghost predicate Moved(m: Migration, entries: seq<Entry>, n: nat, rows: Database, rows': Database)
    requires n <= |entries|
  {
    forall key: Key :: MovedAt(m, Moves(m, entries, n, key.instances), rows, rows', key)
  }

  lemma {:induction false} MovesNext(m: Migration, entries: seq<Entry>, n: nat, s: string)
    requires n < |entries|
    ensures Moves(m, entries, n + 1, s) <==> Moves(m, entries, n, s) || (Fits(m, s) && s == entries[n].instances)
  {
  }

  lemma {:induction false} MovesLater(m: Migration, entries: seq<Entry>, n: nat)
    requires n < |entries| && forall i :: 0 <= i < n ==> entries[i].instances != entries[n].instances
    ensures !Moves(m, entries, n, entries[n].instances)
  {
  }

  /** The key of the entry itself, and any other key, when the entry is moved. */
  lemma {:induction false} MovedAtNext(m: Migration, before: bool, was: Database, rows: Database, e: Entry, key: Key)
    requires MovedAt(m, before, was, rows, key)
    requires key.instances == e.instances ==>
               !before && Key(m.oldHash, e.instances) in was && was[Key(m.oldHash, e.instances)] == e.value
    ensures MovedAt(m, before || key.instances == e.instances, was,
                    rows[Key(m.newHash, e.instances) := e.value] - {Key(m.oldHash, e.instances)}, key)
  {
  }

  /** An entry that fits: its value is stored under the new hash and removed under the old. */
  lemma {:induction false} OneMoved(m: Migration, entries: seq<Entry>, n: nat, was: Database, rows: Database)
    requires n < |entries| && Lists(was, m.oldHash, entries)
    requires Moved(m, entries, n, was, rows) && Fits(m, entries[n].instances)
    ensures var s := entries[n].instances;
            Moved(m, entries, n + 1, was, rows[Key(m.newHash, s) := entries[n].value] - {Key(m.oldHash, s)})
  {
    var rows' := rows[Key(m.newHash, entries[n].instances) := entries[n].value] - {Key(m.oldHash, entries[n].instances)};
    MovesLater(m, entries, n);
    forall key: Key ensures MovedAt(m, Moves(m, entries, n + 1, key.instances), was, rows', key) {
      assert MovedAt(m, Moves(m, entries, n, key.instances), was, rows, key);
      MovesNext(m, entries, n, key.instances);
      MovedAtNext(m, Moves(m, entries, n, key.instances), was, rows, entries[n], key);
    }
  }

  lemma {:induction false} OneSkipped(m: Migration, entries: seq<Entry>, n: nat, was: Database, rows: Database)
    requires n < |entries| && Moved(m, entries, n, was, rows) && !Fits(m, entries[n].instances)
    ensures Moved(m, entries, n + 1, was, rows)
  {
    forall key: Key ensures MovedAt(m, Moves(m, entries, n + 1, key.instances), was, rows, key) {
      assert MovedAt(m, Moves(m, entries, n, key.instances), was, rows, key);
      MovesNext(m, entries, n, key.instances);
    }
  }

  lemma {:induction false} NoneMoved(m: Migration, entries: seq<Entry>, rows: Database)
    ensures Moved(m, entries, 0, rows, rows)
  {
  }

  class UspDatabase {
    var rows: Database

    constructor ()
      ensures rows == map[]
    {
      rows := map[];
    }

    method SetParameterValue(hash: nat, instances: string, value: string)
      modifies this
      ensures rows == old(rows)[Key(hash, instances) := value]
    {
      rows := rows[Key(hash, instances) := value];
    }

    method DeleteParameter(hash: nat, instances: string)
      modifies this
      ensures rows == old(rows) - {Key(hash, instances)}
    {
      rows := rows - {Key(hash, instances)};
    }

    /** Moves the entries one by one; an entry that does not fit is skipped, a malformed one ends the migration. */
    method MigratePath(m: Migration, entries: seq<Entry>) returns (ok: bool)
      requires Lists(rows, m.oldHash, entries)
      modifies this
      ensures Moved(m, entries, Readable(entries), old(rows), rows)
      ensures Readable(entries) < |entries| ==> !ok
    {
      ghost var was := rows;
      ok := true;
      var i := 0;
      assert entries[0..] == entries;
      NoneMoved(m, entries, was);
      while i < |entries|
        invariant i <= |entries| && Readable(entries) == i + Readable(entries[i..])
        invariant Moved(m, entries, i, was, rows)
      {
        assert entries[i..][1..] == entries[i + 1..] && entries[i..][0] == entries[i];
        var numbers := ParseInstanceString(entries[i].instances);
        if numbers.None? {
          return false;
        }
        ok := MigrateEntry(m, entries, i, numbers.value, was);
        i := i + 1;
      }
    }

    /** Moves one entry unless it does not fit. */
    method MigrateEntry(m: Migration, entries: seq<Entry>, i: nat, numbers: seq<nat>, ghost was: Database) returns (ok: bool)
      requires i < |entries| && Lists(was, m.oldHash, entries)
      requires Moved(m, entries, i, was, rows) && ParseInstances(entries[i].instances) == Some(numbers)
      modifies this
      ensures Moved(m, entries, i + 1, was, rows) && ok == Fits(m, entries[i].instances)
    {
      if Instantiate(m.oldPath, numbers).None? || Instantiate(m.newPath, numbers).None? {
        OneSkipped(m, entries, i, was, rows);
        return false;
      }
      OneMoved(m, entries, i, was, rows);
      SetParameterValue(m.newHash, entries[i].instances, entries[i].value);
      DeleteParameter(m.oldHash, entries[i].instances);
      return true;
    }
  }

  /** If no row is malformed, exactly the rows whose number of instances fits both paths are gone from the old
      hash. All of them are readable under the new hash, with their values, if and only if it is another one. */
  lemma {:induction false} AllWellFormedMoved(m: Migration, entries: seq<Entry>, rows: Database, rows': Database, s: string)
    requires Lists(rows, m.oldHash, entries)
    requires Moved(m, entries, Readable(entries), rows, rows') && Key(m.oldHash, s) in rows
    requires forall i :: 0 <= i < |entries| ==> !Malformed(entries[i].instances)
    ensures Key(m.oldHash, s) !in rows' <==>
              |ParseInstances(s).value| == CountMarkers(m.oldPath) == CountMarkers(m.newPath)
    ensures Key(m.oldHash, s) !in rows' ==>
              (Key(m.newHash, s) in rows' && rows'[Key(m.newHash, s)] == rows[Key(m.oldHash, s)] <==> m.newHash != m.oldHash)
  {
    FitsByCount(m, s);
    var n := Readable(entries);
    assert Moves(m, entries, n, s) <==> Fits(m, s);
    assert MovedAt(m, Moves(m, entries, n, s), rows, rows', Key(m.oldHash, s));
    assert MovedAt(m, Moves(m, entries, n, s), rows, rows', Key(m.newHash, s));
  }

  /** Rows under other hashes are not touched, and neither are rows under the new hash whose instances no
      migrated row has. */
  lemma {:induction false} OthersUntouched(m: Migration, entries: seq<Entry>, rows: Database, rows': Database, key: Key)
    requires Lists(rows, m.oldHash, entries) && Moved(m, entries, Readable(entries), rows, rows')
    requires key.hash != m.oldHash && (key.hash == m.newHash ==> Key(m.oldHash, key.instances) !in rows)
    ensures key in rows' <==> key in rows
    ensures key in rows ==> rows'[key] == rows[key]
  {
    var n := Readable(entries);
    if Moves(m, entries, n, key.instances) {
      var i :| 0 <= i < n && entries[i].instances == key.instances;
      assert Key(m.oldHash, entries[i].instances) in rows;
    }
    assert MovedAt(m, Moves(m, entries, n, key.instances), rows, rows', key);
  }

  lemma {:induction false} MovesIfEarlier(m: Migration, entries: seq<Entry>, n: nat, i: nat)
    requires n <= |entries| && i < |entries|
    requires forall j, k :: 0 <= j < k < |entries| ==> entries[j].instances != entries[k].instances
    ensures Moves(m, entries, n, entries[i].instances) <==> Fits(m, entries[i].instances) && i < n
  {
  }

  /** In general a row is moved exactly if it fits and no malformed row comes before it. */
  lemma {:induction false} MovedExactly(m: Migration, entries: seq<Entry>, rows: Database, rows': Database, i: nat)
    requires Lists(rows, m.oldHash, entries) && i < |entries|
    requires Moved(m, entries, Readable(entries), rows, rows')
    ensures Key(m.oldHash, entries[i].instances) !in rows' <==>
              Fits(m, entries[i].instances) && forall j :: 0 <= j < i ==> !Malformed(entries[j].instances)
  {
    var n, key := Readable(entries), Key(m.oldHash, entries[i].instances);
    assert MovedAt(m, Moves(m, entries, n, key.instances), rows, rows', key);
    MovesIfEarlier(m, entries, n, i);
    if Fits(m, entries[i].instances) {
      ReadableExactly(entries, i);
    }
  }

  lemma {:induction false} ReadableExactly(entries: seq<Entry>, i: nat)
    requires i < |entries| && !Malformed(entries[i].instances)
    ensures i < Readable(entries) <==> forall j :: 0 <= j < i ==> !Malformed(entries[j].instances)
  {
    var n := Readable(entries);
    if i > n {
      assert Malformed(entries[n].instances);
    }
  }
}
