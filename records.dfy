/** The JSON record store the service keeps its users, tokens and checks in
    (`lib/data.js`, which is not part of this model). Each record is one JSON
    value filed under a collection and an id. What the model assumes of it:
    `create` fails on an existing record, `read`, `update` and `delete` fail
    on a missing one, and any record may additionally be unreadable or
    unwritable, as given by a `Faults` value chosen by the environment. */
module RecordStore {
  import opened Json

  datatype Collection = Users | Tokens | Checks

  type Key = (Collection, string)

  type Records = map<Key, Json>

  /** The records whose file the environment refuses to read or to write. */
  datatype Faults = Faults(unreadable: set<Key>, unwritable: set<Key>)

  const NoFaults := Faults({}, {})

  /** `read(dir, file)`: the parsed record, or `None` for an error. */
  function Fetched(records: Records, faults: Faults, key: Key): Option<Json>
  {
    if key in records && key !in faults.unreadable then Some(records[key]) else None
  }

  /** The result of `create`, `update` or `delete`: whether the callback got
      an error, and the records afterwards. */
  datatype Written = Written(err: bool, records: Records)

  function Created(records: Records, faults: Faults, key: Key, v: Json): Written
  {
    if key in records || key in faults.unwritable then Written(true, records)
    else Written(false, records[key := v])
  }

  function Updated(records: Records, faults: Faults, key: Key, v: Json): Written
  {
    if key !in records || key in faults.unwritable then Written(true, records)
    else Written(false, records[key := v])
  }

  function Deleted(records: Records, faults: Faults, key: Key): Written
  {
    if key !in records || key in faults.unwritable then Written(true, records)
    else Written(false, records - {key})
  }

  /** The ids filed under one collection. */
  function Ids(records: Records, c: Collection): set<string>
  {
    set k | k in records.Keys && k.0 == c :: k.1
  }

  class Store {
    var records: Records

    constructor (initial: Records)
      ensures records == initial
    {
      records := initial;
    }

    method Read(key: Key, faults: Faults) returns (data: Option<Json>)
      ensures data == Fetched(records, faults, key)
    {
      if key in records && key !in faults.unreadable {
        data := Some(records[key]);
      } else {
        data := None;
      }
    }

    method Create(key: Key, v: Json, faults: Faults) returns (err: bool)
      modifies this
      ensures Written(err, records) == Created(old(records), faults, key, v)
    {
      err := key in records || key in faults.unwritable;
      if !err {
        records := records[key := v];
      }
    }

    method Update(key: Key, v: Json, faults: Faults) returns (err: bool)
      modifies this
      ensures Written(err, records) == Updated(old(records), faults, key, v)
    {
      err := key !in records || key in faults.unwritable;
      if !err {
        records := records[key := v];
      }
    }

    method Delete(key: Key, faults: Faults) returns (err: bool)
      modifies this
      ensures Written(err, records) == Deleted(old(records), faults, key)
    {
      err := key !in records || key in faults.unwritable;
      if !err {
        records := records - {key};
      }
    }

    /** `list(dir)`: every id of the collection once, in directory order. */
    method List(c: Collection, listFails: bool) returns (err: bool, ids: seq<string>)
      ensures err == listFails && (err ==> ids == [])
      ensures !err ==> Enumerates(ids, Ids(records, c))
    {
      if listFails {
        return true, [];
      }
      err := false;
      ids := [];
      var pending := Ids(records, c);
      while pending != {}
        invariant pending <= Ids(records, c)
        invariant forall x :: x in ids <==> x in Ids(records, c) && x !in pending
        invariant forall i, j :: 0 <= i < j < |ids| ==> ids[i] != ids[j]
        decreases |pending|
      {
        var id :| id in pending;
        ids := ids + [id];
        pending := pending - {id};
      }
    }
  }
}
