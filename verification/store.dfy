/** The advisory store: `Cache`, a namespaced key-value facade over Redis.
    The Redis database is a map from key to the list kept under that key;
    a write pushes onto the front of the list and a read takes index 0, so
    the latest write wins while older values stay in the list. */
module AdvisoryStore {
  import opened Text
  import opened Normalizer

  /** The Redis database: each key holds a list (front first). */
  type Db = map<string, seq<Record>>

  const DefaultPrefix := "internal/notus/advisories"

  /** Redis drops a list once it is empty, so no key holds `[]`. */
  ghost predicate NoEmptyList(db: Db) {
    forall k :: k in db ==> db[k] != []
  }

  function Key(prefix: string, oid: string): string {
    prefix + "/" + oid
  }

  /** The list under `key`; an absent key reads as the empty list. */
  function ListAt(db: Db, key: string): seq<Record> {
    if key in db then db[key] else []
  }

  /** `LPUSH key value`. */
  function Push(db: Db, key: string, value: Record): (r: Db)
    ensures r.Keys == db.Keys + {key}
    ensures r[key] == [value] + ListAt(db, key)
    ensures forall k :: k in db && k != key ==> r[k] == db[k]
    ensures NoEmptyList(db) ==> NoEmptyList(r)
  {
    db[key := [value] + ListAt(db, key)]
  }

  /** `LINDEX key 0`: the most recently pushed value, if any. */
  function Latest(db: Db, key: string): (r: Option<Record>)
    ensures r.None? <==> key !in db || db[key] == []
    ensures r.Some? ==> r.value == db[key][0]
  {
    if key in db && db[key] != [] then Some(db[key][0]) else None
  }

  /** `SCAN_ITER prefix*`, each key cut after its last '/'. */
  function KeysUnder(db: Db, prefix: string): set<string> {
    set k | k in db && StartsWith(k, prefix) :: LastSegment(k)
  }

  /** Every stored oid without a '/' comes back from the key scan, and
      nothing the scan gives back holds a '/'. */
  lemma KeysUnderEnumeratesOids(db: Db, prefix: string, oid: string)
    requires '/' !in oid && Key(prefix, oid) in db
    ensures oid in KeysUnder(db, prefix)
    ensures forall o :: o in KeysUnder(db, prefix) ==> '/' !in o
  {
    var k := Key(prefix, oid);
    assert StartsWith(k, prefix) by { assert k[..|prefix|] == prefix; }
    LastSegmentOfJoin(prefix, oid);
  }

  /** Latest-wins: a push is read back at once, and a second push to the
      same key hides the first while keeping it in the list. */
  lemma StoreThenRead(db: Db, key: string, first: Record, second: Record)
    ensures Latest(Push(db, key, first), key) == Some(first)
    ensures var d := Push(Push(db, key, first), key, second);
      Latest(d, key) == Some(second) && d[key][1] == first && d[key][2..] == ListAt(db, key)
  {
  }

  class Cache {
    const prefix: string
    var db: Db

    ghost predicate Valid()
      reads this
    {
      NoEmptyList(db)
    }

    constructor (db: Db, prefix: string)
      requires NoEmptyList(db)
      ensures Valid() && this.db == db && this.prefix == prefix
    {
      this.db := db;
      this.prefix := prefix;
    }

    /** `store_advisory(oid, value)`: returns the list's new length, as LPUSH does. */
    method StoreAdvisory(oid: string, value: Record) returns (length: nat)
      requires Valid()
      modifies this
      ensures Valid()
      ensures db == Push(old(db), Key(prefix, oid), value)
      ensures length == |old(ListAt(db, Key(prefix, oid)))| + 1
    {
      var key := Key(prefix, oid);
      var list := if key in db then db[key] else [];
      db := db[key := [value] + list];
      length := |list| + 1;
    }

    /** `exists(oid)`: the key is present, which is exactly when a value
        can be read from it. */
    function Exists(oid: string): (r: bool)
      requires Valid()
      reads this
      ensures r <==> GetAdvisory(oid).Some?
    {
      Key(prefix, oid) in db
    }

    /** `get_advisory(oid)`: the value pushed last under the oid, if any. */
    function GetAdvisory(oid: string): (r: Option<Record>)
      reads this
      ensures r.None? <==> Key(prefix, oid) !in db || db[Key(prefix, oid)] == []
      ensures r.Some? ==> r.value == db[Key(prefix, oid)][0]
    {
      Latest(db, Key(prefix, oid))
    }

    /** `get_keys()`: one name per key under the prefix, none holding a '/'. */
    function GetKeys(): (r: set<string>)
      reads this
      ensures forall o :: o in r ==> '/' !in o
      ensures forall o :: o in r ==> exists k :: k in db && StartsWith(k, prefix) && LastSegment(k) == o
      ensures forall oid :: '/' !in oid && Key(prefix, oid) in db ==> oid in r
    {
      var r := KeysUnder(db, prefix);
      assert forall oid :: '/' !in oid && Key(prefix, oid) in db ==> oid in r by {
        forall oid | '/' !in oid && Key(prefix, oid) in db {
          KeysUnderEnumeratesOids(db, prefix, oid);
        }
      }
      r
    }
  }
}
