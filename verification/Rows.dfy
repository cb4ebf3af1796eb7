/** The `contracts` and `events` tables: rows owned by a key (the client's public key), with a unique
    index on (key, uuid). `T` holds the remaining columns. */
module Rows {
  import opened Base

  datatype Row<+T> = Row(id: nat, key: string, uuid: string, body: T)

  /** A query as the server builds it up: by key, then by a column, then by uuid. */
  datatype Query<!T> = Query(key: string, want: Option<T -> bool>, uuid: Option<string>)

  predicate Matches<T>(q: Query<T>, r: Row<T>) {
    && r.key == q.key
    && (q.want.Some? ==> q.want.value(r.body))
    && (q.uuid.Some? ==> r.uuid == q.uuid.value)
  }

  predicate Is<T>(r: Row<T>, key: string, uuid: string) { r.key == key && r.uuid == uuid }

  function Keep<T>(rows: seq<Row<T>>, q: Query<T>): seq<Row<T>> {
    if rows == [] then []
    else (if Matches(q, rows[0]) then [rows[0]] else []) + Keep(rows[1..], q)
  }

  function Find<T>(rows: seq<Row<T>>, key: string, uuid: string): Option<T> {
    if rows == [] then None
    else if Is(rows[0], key, uuid) then Some(rows[0].body)
    else Find(rows[1..], key, uuid)
  }

  function Without<T>(rows: seq<Row<T>>, key: string, uuid: string): seq<Row<T>> {
    if rows == [] then []
    else (if Is(rows[0], key, uuid) then [] else [rows[0]]) + Without(rows[1..], key, uuid)
  }

  function Changed<T>(rows: seq<Row<T>>, key: string, uuid: string, f: T -> T): seq<Row<T>> {
    if rows == [] then []
    else
      var r: Row<T> := rows[0];
      [if Is(r, key, uuid) then Row(r.id, r.key, r.uuid, f(r.body)) else r] + Changed(rows[1..], key, uuid, f)
  }

  function Hits<T>(rows: seq<Row<T>>, key: string, uuid: string): nat {
    if rows == [] then 0
    else (if Is(rows[0], key, uuid) then 1 else 0) + Hits(rows[1..], key, uuid)
  }

  /** The unique index. */
  ghost predicate Unique<T(!new)>(rows: seq<Row<T>>) {
    forall key, uuid :: Hits(rows, key, uuid) <= 1
  }

  /** The rows of every other key are untouched. */
  ghost predicate OthersKept<T(!new)>(before: seq<Row<T>>, after: seq<Row<T>>, key: string) {
    forall k, u :: k != key ==> Find(after, k, u) == Find(before, k, u)
  }

  lemma {:induction false} HitsFind<T>(rows: seq<Row<T>>, key: string, uuid: string)
    ensures Hits(rows, key, uuid) > 0 <==> Find(rows, key, uuid).Some?
  {
    if rows != [] { HitsFind(rows[1..], key, uuid); }
  }

  /** A row is found by its own key and uuid, and what is found is a row. */
  lemma {:induction false} FindRow<T>(rows: seq<Row<T>>, r: Row<T>)
    requires r in rows && Hits(rows, r.key, r.uuid) <= 1
    ensures Find(rows, r.key, r.uuid) == Some(r.body)
  {
    if rows[0] != r {
      if Is(rows[0], r.key, r.uuid) {
        MemberHits(rows[1..], r);
        assert false;
      }
      FindRow(rows[1..], r);
    }
  }

  lemma {:induction false} MemberHits<T>(rows: seq<Row<T>>, r: Row<T>)
    requires r in rows
    ensures Hits(rows, r.key, r.uuid) > 0
  {
    if rows[0] != r { MemberHits(rows[1..], r); }
  }

  lemma {:induction false} FoundIsRow<T>(rows: seq<Row<T>>, key: string, uuid: string) returns (r: Row<T>)
    requires Find(rows, key, uuid).Some?
    ensures r in rows && Is(r, key, uuid) && Find(rows, key, uuid) == Some(r.body)
  {
    if Is(rows[0], key, uuid) { r := rows[0]; } else { r := FoundIsRow(rows[1..], key, uuid); }
  }

  lemma {:induction false} AppendEffect<T>(rows: seq<Row<T>>, r: Row<T>, key: string, uuid: string)
    ensures Hits(rows + [r], key, uuid) == Hits(rows, key, uuid) + if Is(r, key, uuid) then 1 else 0
    ensures Find(rows + [r], key, uuid)
         == if Find(rows, key, uuid).None? && Is(r, key, uuid) then Some(r.body) else Find(rows, key, uuid)
  {
    if rows == [] {
      assert rows + [r] == [r] && [r][1..] == [];
      assert Hits([r][1..], key, uuid) == 0 && Find([r][1..], key, uuid) == None;
    } else {
      AppendEffect(rows[1..], r, key, uuid);
      assert (rows + [r])[1..] == rows[1..] + [r];
    }
  }

  lemma {:induction false} WithoutEffect<T>(rows: seq<Row<T>>, k: string, u: string, key: string, uuid: string)
    ensures |Without(rows, k, u)| == |rows| - Hits(rows, k, u)
    ensures Hits(Without(rows, k, u), key, uuid) == if key == k && uuid == u then 0 else Hits(rows, key, uuid)
    ensures Find(Without(rows, k, u), key, uuid) == if key == k && uuid == u then None else Find(rows, key, uuid)
  {
    if rows != [] {
      WithoutEffect(rows[1..], k, u, key, uuid);
      var w := Without(rows, k, u);
      assert w == (if Is(rows[0], k, u) then [] else [rows[0]]) + Without(rows[1..], k, u);
      if Is(rows[0], k, u) {
        assert w == Without(rows[1..], k, u);
      } else {
        assert w[0] == rows[0] && w[1..] == Without(rows[1..], k, u);
      }
    }
  }

  lemma {:induction false} ChangedEffect<T>(rows: seq<Row<T>>, k: string, u: string, f: T -> T, key: string,
                                            uuid: string)
    ensures Hits(Changed(rows, k, u, f), key, uuid) == Hits(rows, key, uuid)
    ensures Find(Changed(rows, k, u, f), key, uuid)
         == if key == k && uuid == u && Find(rows, k, u).Some? then Some(f(Find(rows, k, u).value))
           else Find(rows, key, uuid)
  {
    if rows != [] {
      ChangedEffect(rows[1..], k, u, f, key, uuid);
      var w := Changed(rows, k, u, f);
      assert w[1..] == Changed(rows[1..], k, u, f);
    }
  }

  /** A query returns exactly the rows that match it. */
  lemma {:induction false} KeepMembers<T>(rows: seq<Row<T>>, q: Query<T>, r: Row<T>)
    ensures r in Keep(rows, q) <==> r in rows && Matches(q, r)
  {
    if rows != [] { KeepMembers(rows[1..], q, r); }
  }

  /** Asking by key and uuid gives at most the one row of the unique index. */
  lemma {:induction false} KeepOne<T>(rows: seq<Row<T>>, key: string, uuid: string)
    requires Hits(rows, key, uuid) <= 1
    ensures var res := Keep(rows, Query(key, None, Some(uuid)));
            if Find(rows, key, uuid).Some? then |res| == 1 && res[0].body == Find(rows, key, uuid).value else res == []
  {
    if rows != [] {
      var q: Query<T> := Query(key, None, Some(uuid));
      assert Matches(q, rows[0]) <==> Is(rows[0], key, uuid);
      if Is(rows[0], key, uuid) {
        HitsFind(rows[1..], key, uuid);
      }
      KeepOne(rows[1..], key, uuid);
    }
  }

  /** The rows of one key that a query returns have different uuids. */
  lemma {:induction false} KeepDistinct<T>(rows: seq<Row<T>>, q: Query<T>, i: nat, j: nat)
    requires (forall k, u :: Hits(rows, k, u) <= 1) && i < j < |Keep(rows, q)|
    ensures Keep(rows, q)[i].uuid != Keep(rows, q)[j].uuid
  {
    var head := if Matches(q, rows[0]) then [rows[0]] else [];
    var rest := Keep(rows[1..], q);
    assert Keep(rows, q) == head + rest;
    forall k, u ensures Hits(rows[1..], k, u) <= 1 {
      assert Hits(rows, k, u) == (if Is(rows[0], k, u) then 1 else 0) + Hits(rows[1..], k, u);
    }
    if head == [] {
      KeepDistinct(rows[1..], q, i, j);
    } else if i > 0 {
      KeepDistinct(rows[1..], q, i - 1, j - 1);
    } else {
      var r := rest[j - 1];
      KeepMembers(rows[1..], q, r);
      MemberHits(rows[1..], r);
      assert Hits(rows, r.key, r.uuid) <= 1;
    }
  }

  class Table<T(!new)> {
    var rows: seq<Row<T>>
    var nextId: nat

    ghost predicate Valid()
      reads this
    {
      Unique(rows) && forall r :: r in rows ==> r.id < nextId
    }

    constructor ()
      ensures Valid() && rows == []
    {
      rows, nextId := [], 0;
    }

    method Get(key: string, want: Option<T -> bool>, uuid: Option<string>) returns (res: seq<Row<T>>)
      ensures res == Keep(rows, Query(key, want, uuid))
    {
      var query: Query<T> := Query(key, None, None);
      if want.Some? { query := Query(query.key, want, query.uuid); }
      if uuid.Some? { query := Query(query.key, query.want, uuid); }
      res := Keep(rows, query);
    }

    /** Refused when the unique index already holds (key, uuid). */
    method Create(key: string, uuid: string, body: T) returns (ok: bool)
      requires Valid()
      modifies this
      ensures Valid()
      ensures ok <==> Find(old(rows), key, uuid).None?
      ensures rows == if ok then old(rows) + [Row(old(nextId), key, uuid, body)] else old(rows)
    {
      HitsFind(rows, key, uuid);
      ok := Find(rows, key, uuid).None?;
      if ok {
        var r := Row(nextId, key, uuid, body);
        forall k, u ensures Hits(rows + [r], k, u) <= 1 { AppendEffect(rows, r, k, u); }
        rows := rows + [r];
        nextId := nextId + 1;
      }
    }

    method Delete(key: string, uuid: string) returns (deleted: nat)
      requires Valid()
      modifies this
      ensures Valid()
      ensures rows == Without(old(rows), key, uuid)
      ensures deleted == if Find(old(rows), key, uuid).Some? then 1 else 0
    {
      HitsFind(rows, key, uuid);
      forall k, u ensures Hits(Without(rows, key, uuid), k, u) <= 1 { WithoutEffect(rows, key, uuid, k, u); }
      forall r ensures r in Without(rows, key, uuid) ==> r in rows { WithoutMembers(rows, key, uuid, r); }
      WithoutEffect(rows, key, uuid, key, uuid);
      deleted := |rows| - |Without(rows, key, uuid)|;
      rows := Without(rows, key, uuid);
    }

    method Update(key: string, uuid: string, f: T -> T) returns (updated: nat)
      requires Valid()
      modifies this
      ensures Valid()
      ensures rows == Changed(old(rows), key, uuid, f)
      ensures updated == if Find(old(rows), key, uuid).Some? then 1 else 0
    {
      HitsFind(rows, key, uuid);
      forall k, u ensures Hits(Changed(rows, key, uuid, f), k, u) <= 1 { ChangedEffect(rows, key, uuid, f, k, u); }
      forall r | r in Changed(rows, key, uuid, f) ensures r.id < nextId { ChangedMembers(rows, key, uuid, f, r); }
      updated := Hits(rows, key, uuid);
      rows := Changed(rows, key, uuid, f);
    }
  }

  lemma {:induction false} WithoutMembers<T>(rows: seq<Row<T>>, key: string, uuid: string, r: Row<T>)
    ensures r in Without(rows, key, uuid) <==> r in rows && !Is(r, key, uuid)
  {
    if rows != [] { WithoutMembers(rows[1..], key, uuid, r); }
  }

  lemma {:induction false} ChangedMembers<T>(rows: seq<Row<T>>, key: string, uuid: string, f: T -> T, r: Row<T>)
    requires r in Changed(rows, key, uuid, f)
    ensures exists o :: o in rows && r == if Is(o, key, uuid) then Row(o.id, o.key, o.uuid, f(o.body)) else o
  {
    if r == Changed(rows, key, uuid, f)[0] {
      assert rows[0] in rows;
    } else {
      assert r in Changed(rows[1..], key, uuid, f);
      ChangedMembers(rows[1..], key, uuid, f, r);
    }
  }
}
