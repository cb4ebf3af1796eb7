/** The asynchronous storage provider: contracts as rows of a remote table, where each remote call
    may fail without effect. */
module StorageProvider {
  import opened Base
  import opened Contracts
  import opened ContractCodec
  import opened ContractStore
  import opened Hex
  import opened Rows

  /** The columns of the `contracts` table beside id, key and uuid. */
  datatype Cell = Cell(state: string, content: seq<Byte>)

  function CellOf(codec: Codec, c: Contract): Cell { Cell(StateString(c), Serialize(codec, c)) }

  function HasState(state: string): Cell -> bool { (cell: Cell) => cell.state == state }

  /** Which of the remote calls get through. */
  datatype Calls = Calls(delete: bool, update: bool, create: bool)

  /** The fate of `UpdateContract` on a store, given which calls get through: an update finds no row
      for a new id, and a create is refused by the unique index for an existing one. */
  function Fate(s: Store, c: Contract, calls: Calls): Write {
    Write(calls.delete,
      if MovesId(c) && GetId(c) !in DropTemporary(s, c, calls.delete) then calls.create else calls.update)
  }

  /** The rows of `key` are exactly the stored form of the map. */
  ghost predicate Represents(rows: seq<Row<Cell>>, key: string, codec: Codec, s: Store) {
    && (forall r :: r in rows && r.key == key ==> exists id :: id in s && r.uuid == IdString(id))
    && (forall id :: Find(rows, key, IdString(id)) == if id in s then Some(CellOf(codec, s[id])) else None)
  }

  /** Every row's `state` and `uuid` are those computed from its decoded content. */
  ghost predicate Faithful(rows: seq<Row<Cell>>, key: string, codec: Codec) {
    forall r :: r in rows && r.key == key ==>
      var c := Deserialize(codec, r.body.content);
      c.Ok? && r.body.state == StateString(c.value) && r.uuid == IdString(GetId(c.value))
  }

  lemma RepresentsIsFaithful(rows: seq<Row<Cell>>, key: string, codec: Codec, s: Store)
    requires Unique(rows) && codec.Sound() && Filed(s) && Represents(rows, key, codec, s)
    ensures Faithful(rows, key, codec)
    ensures forall r :: r in rows && r.key == key ==>
              var c := Deserialize(codec, r.body.content); c.Ok? && GetId(c.value) in s && s[GetId(c.value)] == c.value
  {
    forall r | r in rows && r.key == key
      ensures var c := Deserialize(codec, r.body.content);
              c.Ok? && r.body.state == StateString(c.value) && r.uuid == IdString(GetId(c.value))
              && GetId(c.value) in s && s[GetId(c.value)] == c.value
    {
      var id :| id in s && r.uuid == IdString(id);
      FindRow(rows, r);
      DeserializeSerialize(codec, s[id]);
    }
  }

  // The three row operations, seen on the map.

  lemma RepresentsWithout(rows: seq<Row<Cell>>, key: string, codec: Codec, s: Store, id: ContractId)
    requires Unique(rows) && Represents(rows, key, codec, s)
    ensures Represents(Without(rows, key, IdString(id)), key, codec, s - {id})
  {
    var rows' := Without(rows, key, IdString(id));
    forall r | r in rows' && r.key == key ensures exists i :: i in s - {id} && r.uuid == IdString(i) {
      WithoutMembers(rows, key, IdString(id), r);
      var i :| i in s && r.uuid == IdString(i);
      assert i in s - {id};
    }
    forall i
      ensures Find(rows', key, IdString(i)) == if i in s - {id} then Some(CellOf(codec, (s - {id})[i])) else None
    {
      WithoutEffect(rows, key, IdString(id), key, IdString(i));
      IdStringInjective(i, id);
    }
  }

  lemma RepresentsChanged(rows: seq<Row<Cell>>, key: string, codec: Codec, s: Store, c: Contract, f: Cell -> Cell)
    requires Unique(rows) && Represents(rows, key, codec, s) && GetId(c) in s
    requires forall cell :: f(cell) == CellOf(codec, c)
    ensures Represents(Changed(rows, key, IdString(GetId(c)), f), key, codec, s[GetId(c) := c])
  {
    var id, s' := GetId(c), s[GetId(c) := c];
    var rows' := Changed(rows, key, IdString(id), f);
    forall r | r in rows' && r.key == key ensures exists i :: i in s' && r.uuid == IdString(i) {
      ChangedMembers(rows, key, IdString(id), f, r);
      var o :| o in rows && o.key == r.key && o.uuid == r.uuid;
      var i :| i in s && o.uuid == IdString(i);
      assert i in s';
    }
    forall i ensures Find(rows', key, IdString(i)) == if i in s' then Some(CellOf(codec, s'[i])) else None {
      ChangedEffect(rows, key, IdString(id), f, key, IdString(i));
      IdStringInjective(i, id);
    }
  }

  lemma RepresentsAppended(rows: seq<Row<Cell>>, key: string, codec: Codec, s: Store, c: Contract, r: Row<Cell>)
    requires Unique(rows) && Represents(rows, key, codec, s) && GetId(c) !in s
    requires Is(r, key, IdString(GetId(c))) && r.body == CellOf(codec, c)
    ensures Represents(rows + [r], key, codec, s[GetId(c) := c])
  {
    var id, s' := GetId(c), s[GetId(c) := c];
    forall o | o in rows + [r] && o.key == key ensures exists i :: i in s' && o.uuid == IdString(i) {
      if o in rows {
        var i :| i in s && o.uuid == IdString(i);
        assert i in s';
      } else {
        assert id in s';
      }
    }
    forall i ensures Find(rows + [r], key, IdString(i)) == if i in s' then Some(CellOf(codec, s'[i])) else None {
      AppendEffect(rows, r, key, IdString(i));
      IdStringInjective(i, id);
    }
  }

  // Decoding what a query returns.

  function DecodeAll(codec: Codec, rows: seq<Row<Cell>>): Result<seq<Contract>> {
    if rows == [] then Ok([])
    else
      match Deserialize(codec, rows[0].body.content)
      case Err(e) => Err(e)
      case Ok(c) =>
        match DecodeAll(codec, rows[1..])
        case Err(e) => Err(e)
        case Ok(cs) => Ok([c] + cs)
  }

  function InState(cs: seq<Contract>, state: string): seq<Contract> {
    if cs == [] then []
    else (if StateString(cs[0]) == state then [cs[0]] else []) + InState(cs[1..], state)
  }

  /** The state column is an index: querying by it gives what decoding everything and filtering
      would give, in the same order. */
  lemma {:induction false} StateColumnIsIndex(rows: seq<Row<Cell>>, key: string, codec: Codec, state: string)
    requires Faithful(rows, key, codec)
    ensures var all := DecodeAll(codec, Keep(rows, Query(key, None, None)));
            all.Ok? && DecodeAll(codec, Keep(rows, Query(key, Some(HasState(state)), None)))
              == Ok(InState(all.value, state))
  {
    if rows != [] {
      StateColumnIsIndex(rows[1..], key, codec, state);
      var q: Query<Cell> := Query(key, None, None);
      var p: Query<Cell> := Query(key, Some(HasState(state)), None);
      var r := rows[0];
      var restQ, restP := Keep(rows[1..], q), Keep(rows[1..], p);
      assert Keep(rows, q) == (if r.key == key then [r] else []) + restQ;
      assert Keep(rows, p) == (if r.key == key && r.body.state == state then [r] else []) + restP;
      if r.key == key {
        assert Keep(rows, q)[1..] == restQ;
        var c := Deserialize(codec, r.body.content).value;
        var tail := DecodeAll(codec, restQ).value;
        assert ([c] + tail)[1..] == tail;
        if r.body.state == state {
          assert Keep(rows, p)[1..] == restP;
        } else {
          assert Keep(rows, p) == restP;
          assert InState([c] + tail, state) == InState(tail, state);
        }
      } else {
        assert Keep(rows, q) == restQ && Keep(rows, p) == restP;
      }
    }
  }

  /** The contracts that a query decodes to are distinct, and are exactly the stored ones it asks for. */
  lemma {:induction false} DecodedRows(rows: seq<Row<Cell>>, codec: Codec, cs: seq<Contract>)
    requires DecodeAll(codec, rows) == Ok(cs)
    ensures |cs| == |rows| && forall i :: 0 <= i < |rows| ==> Deserialize(codec, rows[i].body.content) == Ok(cs[i])
  {
    if rows != [] {
      DecodedRows(rows[1..], codec, cs[1..]);
      forall i | 0 <= i < |rows| ensures Deserialize(codec, rows[i].body.content) == Ok(cs[i]) {
        if i > 0 { assert rows[i] == rows[1..][i - 1] && cs[i] == cs[1..][i - 1]; }
      }
    }
  }

  /** `cs` lists, without repetition, the contracts of the store that are in `state`. */
  ghost predicate ListsState(s: Store, state: string, cs: seq<Contract>) {
    && (forall c :: c in cs <==> StateString(c) == state && GetId(c) in s && s[GetId(c)] == c)
    && (forall i, j :: 0 <= i < j < |cs| ==> GetId(cs[i]) != GetId(cs[j]))
  }

  /** Position by position, a query's row and its contract belong together. */
  lemma QueriedRow(rows: seq<Row<Cell>>, key: string, codec: Codec, s: Store, state: string, cs: seq<Contract>, i: nat)
    requires Unique(rows) && codec.Sound() && Filed(s) && Represents(rows, key, codec, s)
    requires DecodeAll(codec, Keep(rows, Query(key, Some(HasState(state)), None))) == Ok(cs)
    requires i < |cs|
    ensures |Keep(rows, Query(key, Some(HasState(state)), None))| == |cs|
    ensures Keep(rows, Query(key, Some(HasState(state)), None))[i].uuid == IdString(GetId(cs[i]))
    ensures StateString(cs[i]) == state && GetId(cs[i]) in s && s[GetId(cs[i])] == cs[i]
  {
    var kept := Keep(rows, Query(key, Some(HasState(state)), None));
    DecodedRows(kept, codec, cs);
    KeepMembers(rows, Query(key, Some(HasState(state)), None), kept[i]);
    RepresentsIsFaithful(rows, key, codec, s);
  }

  lemma StoredIsQueried(rows: seq<Row<Cell>>, key: string, codec: Codec, s: Store, state: string, cs: seq<Contract>,
                        c: Contract)
    requires Unique(rows) && codec.Sound() && Represents(rows, key, codec, s)
    requires DecodeAll(codec, Keep(rows, Query(key, Some(HasState(state)), None))) == Ok(cs)
    requires StateString(c) == state && GetId(c) in s && s[GetId(c)] == c
    ensures c in cs
  {
    var kept := Keep(rows, Query(key, Some(HasState(state)), None));
    DecodedRows(kept, codec, cs);
    var r := FoundIsRow(rows, key, IdString(GetId(c)));
    KeepMembers(rows, Query(key, Some(HasState(state)), None), r);
    var i :| 0 <= i < |kept| && kept[i] == r;
    DeserializeSerialize(codec, c);
    assert cs[i] == c;
  }

  lemma QueryListsState(rows: seq<Row<Cell>>, key: string, codec: Codec, s: Store, state: string, cs: seq<Contract>)
    requires Unique(rows) && codec.Sound() && Filed(s) && Represents(rows, key, codec, s)
    requires DecodeAll(codec, Keep(rows, Query(key, Some(HasState(state)), None))) == Ok(cs)
    ensures ListsState(s, state, cs)
  {
    forall i | 0 <= i < |cs| ensures StateString(cs[i]) == state && GetId(cs[i]) in s && s[GetId(cs[i])] == cs[i] {
      QueriedRow(rows, key, codec, s, state, cs, i);
    }
    forall i, j | 0 <= i < j < |cs| ensures GetId(cs[i]) != GetId(cs[j]) {
      QueriedRow(rows, key, codec, s, state, cs, i);
      QueriedRow(rows, key, codec, s, state, cs, j);
      KeepDistinct(rows, Query(key, Some(HasState(state)), None), i, j);
    }
    forall c | StateString(c) == state && GetId(c) in s && s[GetId(c)] == c ensures c in cs {
      StoredIsQueried(rows, key, codec, s, state, cs, c);
    }
  }

  /** What decoding the answer to a state query gives. */
  lemma QueryResult(rows: seq<Row<Cell>>, key: string, codec: Codec, s: Store, state: string)
      returns (cs: seq<Contract>)
    requires Unique(rows) && codec.Sound() && Filed(s) && Represents(rows, key, codec, s)
    ensures var kept := Keep(rows, Query(key, Some(HasState(state)), None));
            |cs| == |kept| && forall i :: 0 <= i < |kept| ==> Deserialize(codec, kept[i].body.content) == Ok(cs[i])
    ensures ListsState(s, state, cs)
    ensures var all := DecodeAll(codec, Keep(rows, Query(key, None, None))); all.Ok? && cs == InState(all.value, state)
  {
    RepresentsIsFaithful(rows, key, codec, s);
    StateColumnIsIndex(rows, key, codec, state);
    var kept := Keep(rows, Query(key, Some(HasState(state)), None));
    cs := DecodeAll(codec, kept).value;
    DecodedRows(kept, codec, cs);
    QueryListsState(rows, key, codec, s, state, cs);
  }

  function AsOffered(c: Contract): Option<OfferedContract> { if c.Offered? then Some(c.offer) else None }
  function AsSigned(c: Contract): Option<SignedContract> { if c.Signed? then Some(c.signed) else None }
  function AsConfirmed(c: Contract): Option<SignedContract> { if c.Confirmed? then Some(c.confirmed) else None }
  function AsPreClosed(c: Contract): Option<PreClosedContract> { if c.PreClosed? then Some(c.preClosed) else None }

  /** The state strings of the four getters pick out their variants. */
  lemma Variants(state: string)
    ensures state == "offered" ==> forall c: Contract :: StateString(c) == state <==> c.Offered?
    ensures state == "signed" ==> forall c: Contract :: StateString(c) == state <==> c.Signed?
    ensures state == "confirmed" ==> forall c: Contract :: StateString(c) == state <==> c.Confirmed?
    ensures state == "pre_closed" ==> forall c: Contract :: StateString(c) == state <==> c.PreClosed?
  {
    forall c: Contract
      ensures state == "offered" ==> (StateString(c) == state <==> c.Offered?)
      ensures state == "signed" ==> (StateString(c) == state <==> c.Signed?)
      ensures state == "confirmed" ==> (StateString(c) == state <==> c.Confirmed?)
      ensures state == "pre_closed" ==> (StateString(c) == state <==> c.PreClosed?)
    {
      if StateString(c) == state {
        assert |StateString(c)| == |state| && StateString(c)[0] == state[0] && StateString(c)[2] == state[2];
      }
    }
  }

  lemma UnwrapExact<P(!new)>(s: Store, state: string, unwrap: Contract -> Option<P>, make: P -> Contract,
                             from: seq<Contract>, vals: seq<P>)
    requires ListsState(s, state, from) && |vals| == |from|
    requires forall i :: 0 <= i < |from| ==> unwrap(from[i]) == Some(vals[i])
    requires forall c, p :: unwrap(c) == Some(p) <==> c == make(p)
    requires forall p :: StateString(make(p)) == state
    ensures forall p :: p in vals <==> Holds(s, make(p))
    ensures forall i, j :: 0 <= i < j < |vals| ==> GetId(make(vals[i])) != GetId(make(vals[j]))
  {
    forall i | 0 <= i < |vals| ensures make(vals[i]) == from[i] { assert unwrap(from[i]) == Some(vals[i]); }
    forall p | Holds(s, make(p)) ensures p in vals {
      assert StateString(make(p)) == state;
      assert make(p) in from;
      var i :| 0 <= i < |from| && from[i] == make(p);
      assert unwrap(from[i]) == Some(p);
    }
    forall p | p in vals ensures Holds(s, make(p)) {
      var i :| 0 <= i < |vals| && vals[i] == p;
      assert from[i] in from;
    }
  }

  class Provider {
    const key: string
    const codec: Codec
    const table: Table<Cell>
    ghost var contents: Store  // what the rows of `key` stand for

    ghost predicate Valid()
      reads this, table
    {
      table.Valid() && codec.Sound() && Filed(contents) && Represents(table.rows, key, codec, contents)
    }

    /** A client of a table in which `key` has no rows yet. */
    constructor (key: string, codec: Codec, table: Table<Cell>)
      requires table.Valid() && codec.Sound() && forall r :: r in table.rows ==> r.key != key
      ensures Valid() && contents == map[] && this.key == key && this.codec == codec && this.table == table
    {
      this.key, this.codec, this.table, contents := key, codec, table, map[];
      new;
      forall id ensures Find(table.rows, key, IdString(id)) == None {
        if Find(table.rows, key, IdString(id)).Some? { var r := FoundIsRow(table.rows, key, IdString(id)); }
      }
    }

    method DeleteContract(id: ContractId, up: bool) returns (ok: bool)
      requires Valid()
      modifies this, table
      ensures Valid() && OthersKept(old(table.rows), table.rows, key)
      ensures contents == if up then old(contents) - {id} else old(contents)
      ensures ok <==> up && id in old(contents)
    {
      if !up { return false; }
      forall k, u ensures Find(Without(table.rows, key, IdString(id)), k, u)
                       == if k == key && u == IdString(id) then None else Find(table.rows, k, u) {
        WithoutEffect(table.rows, key, IdString(id), k, u);
      }
      RepresentsWithout(table.rows, key, codec, contents, id);
      var deleted := table.Delete(key, IdString(id));
      contents := contents - {id};
      ok := deleted != 0;
    }

    /** PUT of one record: an answer of zero updated rows is an error. */
    method PutContract(c: Contract, up: bool) returns (ok: bool)
      requires Valid()
      modifies this, table
      ensures Valid() && OthersKept(old(table.rows), table.rows, key)
      ensures ok <==> up && GetId(c) in old(contents)
      ensures contents == if ok then old(contents)[GetId(c) := c] else old(contents)
    {
      if !up { return false; }
      var cell := CellOf(codec, c);
      var f: Cell -> Cell := _ => cell;
      var uuid := IdString(GetId(c));
      forall k, u ensures Find(Changed(table.rows, key, uuid, f), k, u)
                       == if k == key && u == uuid && Find(table.rows, key, uuid).Some? then Some(cell)
                         else Find(table.rows, k, u) {
        ChangedEffect(table.rows, key, uuid, f, k, u);
      }
      if GetId(c) in contents {
        RepresentsChanged(table.rows, key, codec, contents, c, f);
      } else {
        NoRowNoChange(table.rows, key, uuid, f);
      }
      var updated := table.Update(key, uuid, f);
      ok := updated != 0;
      if ok { contents := contents[GetId(c) := c]; }
    }

    /** POST of one record: refused when the id already has a row. */
    method PostContract(c: Contract, up: bool) returns (ok: bool)
      requires Valid()
      modifies this, table
      ensures Valid() && OthersKept(old(table.rows), table.rows, key)
      ensures ok <==> up && GetId(c) !in old(contents)
      ensures contents == if ok then old(contents)[GetId(c) := c] else old(contents)
    {
      if !up { return false; }
      var r := Row(table.nextId, key, IdString(GetId(c)), CellOf(codec, c));
      forall k, u ensures Find(table.rows + [r], k, u)
                       == if Find(table.rows, k, u).None? && Is(r, k, u) then Some(r.body) else Find(table.rows, k, u) {
        AppendEffect(table.rows, r, k, u);
      }
      if GetId(c) !in contents { RepresentsAppended(table.rows, key, codec, contents, c, r); }
      ok := table.Create(key, IdString(GetId(c)), CellOf(codec, c));
      if ok { contents := contents[GetId(c) := c]; }
    }

    method CreateContract(o: OfferedContract, up: bool) returns (ok: bool)
      requires Valid()
      modifies this, table
      ensures Valid() && OthersKept(old(table.rows), table.rows, key)
      ensures (contents, ok) == Create(old(contents), o, up)
    {
      ok := PostContract(Offered(o), up);
    }

    /** Delete the temporary row (ignoring failure), update, and create if the update failed. */
    method UpdateContract(c: Contract, calls: Calls) returns (ok: bool)
      requires Valid()
      modifies this, table
      ensures Valid() && OthersKept(old(table.rows), table.rows, key)
      ensures (contents, ok) == Update(old(contents), c, Fate(old(contents), c, calls))
    {
      if MovesId(c) {
        var _ := DeleteContract(GetTemporaryId(c), calls.delete);
        ok := PutContract(c, calls.update);
        if !ok {
          ok := PostContract(c, calls.create);
        }
      } else {
        ok := PutContract(c, calls.update);
      }
    }

    method GetContract(id: ContractId, up: bool) returns (res: Result<Option<Contract>>)
      requires Valid()
      ensures res == if !up then Err(StorageError) else Ok(if id in contents then Some(contents[id]) else None)
    {
      if !up { return Err(StorageError); }
      var rows := table.Get(key, None, Some(IdString(id)));
      KeepOne(table.rows, key, IdString(id));
      if rows == [] { return Ok(None); }
      DeserializeSerialize(codec, contents[id]);
      match Deserialize(codec, rows[0].body.content)
      case Ok(c) => res := Ok(Some(c));
      case Err(_) => res := Err(StorageError);
    }

    /** Decodes the contents of an answer one by one. */
    method DecodeContents(rows: seq<Row<Cell>>, ghost expected: seq<Contract>) returns (res: Result<seq<Contract>>)
      requires |expected| == |rows|
      requires forall i :: 0 <= i < |rows| ==> Deserialize(codec, rows[i].body.content) == Ok(expected[i])
      ensures res == Ok(expected)
    {
      var contracts: seq<Contract> := [];
      for i := 0 to |rows|
        invariant contracts == expected[..i]
      {
        assert Deserialize(codec, rows[i].body.content) == Ok(expected[i]);
        match Deserialize(codec, rows[i].body.content) {
          case Ok(c) => contracts := contracts + [c];
          case Err(_) => return Err(StorageError);
        }
      }
      assert expected[..|rows|] == expected;
      res := Ok(contracts);
    }

    method GetContractsByState(state: string, up: bool) returns (res: Result<seq<Contract>>)
      requires Valid()
      ensures !up ==> res == Err(StorageError)
      ensures up ==> res.Ok? && ListsState(contents, state, res.value)
      ensures up ==> var all := DecodeAll(codec, Keep(table.rows, Query(key, None, None)));
                     all.Ok? && res.value == InState(all.value, state)
    {
      if !up { return Err(StorageError); }
      var rows := table.Get(key, Some(HasState(state)), None);
      ghost var expected := QueryResult(table.rows, key, codec, contents, state);
      res := DecodeContents(rows, expected);
    }

    /** The common body of the per-state getters: those contracts of a state query that unwrap as that
        state. None is dropped. */
    method GetUnwrapped<P>(state: string, unwrap: Contract -> Option<P>, up: bool)
        returns (res: Result<seq<P>>, ghost from: seq<Contract>)
      requires Valid()
      requires forall c :: StateString(c) == state ==> unwrap(c).Some?
      ensures !up ==> res == Err(StorageError)
      ensures up ==> res.Ok? && ListsState(contents, state, from) && |res.value| == |from|
      ensures up ==> forall i :: 0 <= i < |from| ==> unwrap(from[i]) == Some(res.value[i])
    {
      var found := GetContractsByState(state, up);
      from := [];
      if found.Err? { return Err(StorageError), []; }
      var vals: seq<P> := [];
      forall j | 0 <= j < |found.value| ensures unwrap(found.value[j]).Some? {
        assert StateString(found.value[j]) == state;
      }
      for i := 0 to |found.value|
        invariant |vals| == i
        invariant forall j :: 0 <= j < i ==> unwrap(found.value[j]) == Some(vals[j])
      {
        var u := unwrap(found.value[i]);
        if u.Some? { vals := vals + [u.value]; }
      }
      res, from := Ok(vals), found.value;
    }

    method GetContractOffers(up: bool) returns (res: Result<seq<OfferedContract>>)
      requires Valid()
      ensures res.Ok? <==> up
      ensures up ==> forall x :: x in res.value <==> Holds(contents, Offered(x))
      ensures up ==> forall i, j :: 0 <= i < j < |res.value| ==>
              GetId(Offered(res.value[i])) != GetId(Offered(res.value[j]))
    {
      Variants("offered");
      ghost var from;
      res, from := GetUnwrapped("offered", AsOffered, up);
      if up { UnwrapExact(contents, "offered", AsOffered, (p: OfferedContract) => Offered(p), from, res.value); }
    }

    method GetSignedContracts(up: bool) returns (res: Result<seq<SignedContract>>)
      requires Valid()
      ensures res.Ok? <==> up
      ensures up ==> forall x :: x in res.value <==> Holds(contents, Signed(x))
      ensures up ==> forall i, j :: 0 <= i < j < |res.value| ==>
              GetId(Signed(res.value[i])) != GetId(Signed(res.value[j]))
    {
      Variants("signed");
      ghost var from;
      res, from := GetUnwrapped("signed", AsSigned, up);
      if up { UnwrapExact(contents, "signed", AsSigned, (p: SignedContract) => Signed(p), from, res.value); }
    }

    method GetConfirmedContracts(up: bool) returns (res: Result<seq<SignedContract>>)
      requires Valid()
      ensures res.Ok? <==> up
      ensures up ==> forall x :: x in res.value <==> Holds(contents, Confirmed(x))
      ensures up ==> forall i, j :: 0 <= i < j < |res.value| ==>
              GetId(Confirmed(res.value[i])) != GetId(Confirmed(res.value[j]))
    {
      Variants("confirmed");
      ghost var from;
      res, from := GetUnwrapped("confirmed", AsConfirmed, up);
      if up { UnwrapExact(contents, "confirmed", AsConfirmed, (p: SignedContract) => Confirmed(p), from, res.value); }
    }

    method GetPreClosedContracts(up: bool) returns (res: Result<seq<PreClosedContract>>)
      requires Valid()
      ensures res.Ok? <==> up
      ensures up ==> forall x :: x in res.value <==> Holds(contents, PreClosed(x))
      ensures up ==> forall i, j :: 0 <= i < j < |res.value| ==>
              GetId(PreClosed(res.value[i])) != GetId(PreClosed(res.value[j]))
    {
      Variants("pre_closed");
      ghost var from;
      res, from := GetUnwrapped("pre_closed", AsPreClosed, up);
      if up {
        UnwrapExact(contents, "pre_closed", AsPreClosed, (p: PreClosedContract) => PreClosed(p), from, res.value);
      }
    }
  }

  lemma {:induction false} NoRowNoChange(rows: seq<Row<Cell>>, key: string, uuid: string, f: Cell -> Cell)
    requires Find(rows, key, uuid) == None
    ensures Changed(rows, key, uuid, f) == rows
  {
    if rows != [] { NoRowNoChange(rows[1..], key, uuid, f); }
  }

  /** A row that an update left as it was, present or absent. */
  ghost predicate Untouched(s: Store, s': Store, id: ContractId) {
    (id in s' <==> id in s) && (id in s ==> s'[id] == s[id])
  }

  /** The update as a whole, whatever fails: on success the new id holds the contract; every row but the
      target and the temporary one is untouched, and the temporary one is untouched or gone. When every
      call gets through, it succeeds exactly for a record that moves or has a row, a moving record
      leaves no temporary row, and no other record adds or removes one. */
  lemma UpdateEffect(s: Store, c: Contract, calls: Calls)
    ensures var (s', ok) := Update(s, c, Fate(s, c, calls));
            && (ok ==> GetId(c) in s' && s'[GetId(c)] == c)
            && (forall id :: id != GetId(c) && id != GetTemporaryId(c) ==> Untouched(s, s', id))
            && (GetTemporaryId(c) != GetId(c) ==> GetTemporaryId(c) !in s' || Untouched(s, s', GetTemporaryId(c)))
            && (calls == Calls(true, true, true) ==>
                  && (ok <==> MovesId(c) || GetId(c) in s)
                  && (MovesId(c) && GetTemporaryId(c) != GetId(c) ==> GetTemporaryId(c) !in s')
                  && (!MovesId(c) ==> s'.Keys == s.Keys))
  {
  }

  /** A failed update leaves the target row as it was, except exactly when the row was filed under the
      temporary id itself and its removal got through. */
  lemma FailedUpdateKeepsTargetIff(s: Store, c: Contract, calls: Calls)
    requires !Update(s, c, Fate(s, c, calls)).1
    ensures Untouched(s, Update(s, c, Fate(s, c, calls)).0, GetId(c))
       <==> !(MovesId(c) && GetId(c) == GetTemporaryId(c) && calls.delete && GetId(c) in s)
  {
  }

  /** When a failed update loses a stored offer: exactly when the removal of its row got through and
      neither write did. */
  lemma FailedUpdateLosesOfferIff(s: Store, c: Contract, calls: Calls)
    requires MovesId(c) && GetTemporaryId(c) != GetId(c)
    requires GetTemporaryId(c) in s && GetId(c) !in s
    ensures var (s', ok) := Update(s, c, Fate(s, c, calls));
            (GetTemporaryId(c) !in s' && GetId(c) !in s') <==> calls.delete && !calls.create
  {
  }
}
