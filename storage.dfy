/**
 * The keyed record store behind both screens: one collection per screen
 * ("todoList", "billList"), written with an explicit id on every call.
 * `add` overwrites the record under an id, `delete` removes it, and
 * `selectList` returns every record in the backend's order: ids in the order
 * they were first written, an overwrite keeping its place and a delete
 * closing the gap.
 */
module Storage {
  import opened Seqs

  ghost predicate Distinct(ids: seq<int>)
  {
    forall i, j :: 0 <= i < j < |ids| ==> ids[i] != ids[j]
  }

  /** `ids` lists the keys of `records`, each exactly once. */
  ghost predicate Indexes<R>(ids: seq<int>, records: map<int, R>)
  {
    && Distinct(ids)
    && (forall i :: 0 <= i < |ids| ==> ids[i] in records)
    && (forall id :: id in records ==> id in ids)
  }

  /** The records stored under `ids`, in that order. */
  function ListOf<R>(ids: seq<int>, records: map<int, R>): (r: seq<R>)
    requires forall i :: 0 <= i < |ids| ==> ids[i] in records
    ensures |r| == |ids|
    ensures forall i :: 0 <= i < |ids| ==> r[i] == records[ids[i]]
  {
    if ids == [] then [] else [records[ids[0]]] + ListOf(ids[1..], records)
  }

  /** `ids` with every occurrence of `id` spliced out, the others keeping their order. */
  function Without(ids: seq<int>, id: int): (r: seq<int>)
    ensures forall k :: k in r <==> k in ids && k != id
  {
    if ids == [] then []
    else if ids[0] == id then Without(ids[1..], id)
    else [ids[0]] + Without(ids[1..], id)
  }

  /** Splicing out an id that is not there changes nothing. */
  lemma {:induction false} WithoutAbsent(ids: seq<int>, id: int)
    requires id !in ids
    ensures Without(ids, id) == ids
  {
    if ids != [] {
      WithoutAbsent(ids[1..], id);
    }
  }

  /** Splicing out an id keeps the other ids distinct and in ascending order when they were. */
  lemma {:induction false} WithoutKeepsOrder(ids: seq<int>, id: int)
    ensures Distinct(ids) ==> Distinct(Without(ids, id))
    ensures Ascending(ids) ==> Ascending(Without(ids, id))
  {
    if ids != [] {
      WithoutKeepsOrder(ids[1..], id);
      assert ids == [ids[0]] + ids[1..];
      var rest := Without(ids[1..], id);
      if ids[0] != id {
        var r := [ids[0]] + rest;
        forall i, j | 0 <= i < j < |r|
          ensures Distinct(ids) ==> r[i] != r[j]
          ensures Ascending(ids) ==> r[i] < r[j]
        {
          assert r[j] in rest && r[j] in ids[1..];
          if i > 0 {
            assert r[i] == rest[i - 1] && r[j] == rest[j - 1];
          }
        }
      }
    }
  }

  /** One collection of the store, holding records of type `R`. */
  class Collection<R> {
    var ids: seq<int>
    var records: map<int, R>

    ghost predicate Valid()
      reads this
    {
      Indexes(ids, records)
    }

    constructor ()
      ensures Valid()
      ensures ids == [] && records == map[]
    {
      ids, records := [], map[];
    }

    /** `storage.selectList(key)`: every stored record, once, in the backend's order. */
    function SelectList(): (r: seq<R>)
      reads this
      requires Valid()
      ensures |r| == |ids|
      ensures forall i :: 0 <= i < |ids| ==> r[i] == records[ids[i]]
    {
      ListOf(ids, records)
    }

    /** `storage.add(key, id, data)`: an upsert; a new id goes to the end of the order. */
    method Add(id: int, data: R)
      requires Valid()
      modifies this
      ensures Valid()
      ensures records == old(records)[id := data]
      ensures ids == if id in old(records) then old(ids) else old(ids) + [id]
    {
      if id !in records {
        ids := ids + [id];
      }
      records := records[id := data];
    }

    /** `storage.delete(key, id)`: removes the record; an absent id changes nothing. */
    method Delete(id: int)
      requires Valid()
      modifies this
      ensures Valid()
      ensures records == old(records) - {id}
      ensures ids == Without(old(ids), id)
      ensures id !in old(records) ==> records == old(records) && ids == old(ids)
      ensures Ascending(old(ids)) ==> Ascending(ids)
    {
      if id !in ids {
        WithoutAbsent(ids, id);
      }
      WithoutKeepsOrder(ids, id);
      ids := Without(ids, id);
      records := records - {id};
      assert forall i :: 0 <= i < |ids| ==> ids[i] in ids;
    }
  }
}
