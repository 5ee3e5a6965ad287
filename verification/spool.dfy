/**
 The persistent offline cache of one push channel (push/spool.go): rows kept in
 insertion order under strictly growing ids, and an in-memory counter that
 spares a COUNT query per batch.  Storage failures are outside this module.
 */
module Spool {

  /** A cached batch. `id` names the stored row, hence its contents. */
  datatype SpoolBatch = SpoolBatch(id: nat, recordCount: nat)

  /** Row ids are assigned by the store: positive and strictly increasing. */
  ghost predicate Ordered(rows: seq<SpoolBatch>) {
    && (forall i :: 0 <= i < |rows| ==> rows[i].id > 0)
    && (forall i, j :: 0 <= i < j < |rows| ==> rows[i].id < rows[j].id)
  }

  ghost function Ids(rows: seq<SpoolBatch>): (ids: set<nat>) {
    set b <- rows :: b.id
  }

  /** What one DELETE ... WHERE id IN ids leaves behind. */
  function Without(rows: seq<SpoolBatch>, ids: set<nat>): (left: seq<SpoolBatch>)
    ensures |left| <= |rows|
    ensures forall b :: b in left <==> b in rows && b.id !in ids
  {
    if rows == [] then []
    else if rows[0].id in ids then Without(rows[1..], ids)
    else [rows[0]] + Without(rows[1..], ids)
  }

  lemma {:induction false} WithoutNothing(rows: seq<SpoolBatch>, ids: set<nat>)
    requires forall b :: b in rows ==> b.id !in ids
    ensures Without(rows, ids) == rows
  {
    if rows != [] {
      assert rows[0] in rows;
      WithoutNothing(rows[1..], ids);
    }
  }

  /** Deleting the ids of a prefix, as the drainer and the trim both do, leaves exactly the suffix. */
  lemma {:induction false} WithoutPrefix(rows: seq<SpoolBatch>, n: nat)
    requires Ordered(rows) && n <= |rows|
    ensures Without(rows, Ids(rows[..n])) == rows[n..]
  {
    if n == 0 {
      WithoutNothing(rows, Ids(rows[..0]));
    } else {
      var ids := Ids(rows[..n]);
      assert rows[..n][0] == rows[0] && rows[0].id in ids;
      WithoutPrefix(rows[1..], n - 1);
      assert rows[1..][..n - 1] == rows[1..n];
      WithoutSame(rows[1..], ids, Ids(rows[1..n]), rows[0].id);
      assert rows[1..][n - 1..] == rows[n..];
    }
  }

  lemma {:induction false} WithoutSame(rows: seq<SpoolBatch>, big: set<nat>, small: set<nat>, extra: nat)
    requires forall b :: b in rows ==> b.id != extra
    requires forall b :: b in rows ==> (b.id in big <==> b.id in small)
    ensures Without(rows, big) == Without(rows, small)
  {
    if rows != [] {
      assert rows[0] in rows;
      WithoutSame(rows[1..], big, small, extra);
    }
  }

  class SqliteSpool {
    var rows: seq<SpoolBatch>
    var nextId: nat
    var count: int

    /** The counter is exact, whatever mix of inserts and idempotent deletes came before. */
    ghost predicate Valid()
      reads this
    {
      && Ordered(rows)
      && nextId > 0
      && (forall i :: 0 <= i < |rows| ==> rows[i].id < nextId)
      && count == |rows|
    }

    constructor ()
      ensures Valid() && rows == []
    {
      rows, nextId, count := [], 1, 0;
    }

    method InsertMany(recordCounts: seq<nat>)
      requires Valid()
      modifies this
      ensures Valid()
      ensures |rows| == |old(rows)| + |recordCounts|
      ensures rows[..|old(rows)|] == old(rows)
      ensures forall i :: 0 <= i < |recordCounts| ==> rows[|old(rows)| + i].recordCount == recordCounts[i]
    {
      ghost var before := rows;
      for k := 0 to |recordCounts|
        invariant Valid() && |rows| == |before| + k
        invariant rows[..|before|] == before
        invariant forall i :: 0 <= i < k ==> rows[|before| + i].recordCount == recordCounts[i]
      {
        rows := rows + [SpoolBatch(nextId, recordCounts[k])];
        nextId := nextId + 1;
        count := count + 1;
      }
    }

    method FetchOldest(limit: int) returns (pend: seq<SpoolBatch>)
      ensures pend == rows[..if limit <= 0 then 0 else if limit <= |rows| then limit else |rows|]
    {
      if limit <= 0 {
        return [];
      }
      pend := if limit <= |rows| then rows[..limit] else rows;
    }

    method DeleteBatch(ids: set<nat>)
      requires Valid()
      modifies this
      ensures Valid() && rows == Without(old(rows), ids) && nextId == old(nextId)
    {
      WithoutKeepsOrder(rows, ids);
      var left := Without(rows, ids);
      var affected := |rows| - |left|;
      rows := left;
      count := count - affected;
      assert forall i :: 0 <= i < |rows| ==> rows[i] in old(rows);
    }

    method DeleteOldest(n: int)
      requires Valid()
      modifies this
      ensures Valid() && nextId == old(nextId)
      ensures rows == old(rows)[if n <= 0 then 0 else if n <= |old(rows)| then n else |old(rows)|..]
    {
      if n <= 0 {
        return;
      }
      var oldest := FetchOldest(n);
      WithoutPrefix(rows, |oldest|);
      assert (set b <- oldest :: b.id) == Ids(rows[..|oldest|]);
      DeleteBatch(set b <- oldest :: b.id);
    }
  }

  lemma {:induction false} WithoutKeepsOrder(rows: seq<SpoolBatch>, ids: set<nat>)
    requires Ordered(rows)
    ensures Ordered(Without(rows, ids))
  {
    if rows != [] {
      WithoutKeepsOrder(rows[1..], ids);
      var rest := Without(rows[1..], ids);
      forall i | 0 <= i < |rest|
        ensures rest[i].id > rows[0].id
      {
        assert rest[i] in rest && rest[i] in rows[1..];
      }
    }
  }
}
