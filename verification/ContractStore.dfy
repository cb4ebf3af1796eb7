/** The contract store as the manager sees it: a map from the id of a record to the record. The
    storage provider is proved to behave as these updates on every pattern of failing calls. */
module ContractStore {
  import opened Contracts

  type Store = map<ContractId, Contract>

  /** Every record is filed under its own id. */
  ghost predicate Filed(s: Store) {
    forall id :: id in s ==> GetId(s[id]) == id
  }

  ghost predicate Holds(s: Store, c: Contract) { GetId(c) in s && s[GetId(c)] == c }

  /** What became of one update: whether the row of the temporary id was removed (its failure is
      ignored), and whether the record was written. */
  datatype Write = Write(deleted: bool, written: bool)

  predicate MovesId(c: Contract) { c.Accepted? || c.Signed? }

  function DropTemporary(s: Store, c: Contract, deleted: bool): Store {
    if MovesId(c) && deleted then s - {GetTemporaryId(c)} else s
  }

  /** Accepted and Signed records are moved to their contract id and created there if absent; any
      other record must already have a row. */
  function Update(s: Store, c: Contract, w: Write): (r: (Store, bool))
    ensures r.1 ==> GetId(c) in r.0 && r.0[GetId(c)] == c
    ensures Filed(s) ==> Filed(r.0)
  {
    var s1 := DropTemporary(s, c, w.deleted);
    if w.written && (MovesId(c) || GetId(c) in s1) then (s1[GetId(c) := c], true) else (s1, false)
  }

  function Create(s: Store, o: OfferedContract, written: bool): (r: (Store, bool))
    ensures r.1 <==> written && o.id !in s
    ensures Filed(s) ==> Filed(r.0)
  {
    if written && o.id !in s then (s[o.id := Offered(o)], true) else (s, false)
  }
}
