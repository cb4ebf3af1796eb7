/** The browser wallet's cache of unspent outputs and their transactions. */
module ChainCache {
  import opened Base

  type Txid = nat

  datatype Utxo = Utxo(txid: Txid, vout: nat, value: nat)
  /** One output as fetched; `txid` is None when the id string does not parse. */
  datatype UtxoResp = UtxoResp(txid: Option<Txid>, vout: nat, value: nat)
  datatype Transaction = Transaction(txid: Txid, raw: seq<Byte>)

  /** What the remote side answers during one refresh; None is a failed request. */
  datatype Answers = Answers(height: Option<nat>, utxos: Option<seq<UtxoResp>>, addressParses: bool,
                             tx: Txid -> Option<Transaction>)

  datatype Cache = Cache(utxos: seq<Utxo>, txs: map<Txid, Transaction>, height: nat)

  /** The fetched outputs whose ids parse, in order. */
  function Parsed(resps: seq<UtxoResp>): seq<Utxo> {
    if resps == [] then []
    else
      var r := resps[0];
      (if r.txid.Some? then [Utxo(r.txid.value, r.vout, r.value)] else []) + Parsed(resps[1..])
  }

  /** Adds the transactions of the outputs one by one, up to the first that cannot be fetched. */
  function AddTxs(txs: map<Txid, Transaction>, utxos: seq<Utxo>,
                  tx: Txid -> Option<Transaction>): (map<Txid, Transaction>, bool)
    decreases |utxos|
  {
    if utxos == [] then (txs, true)
    else
      match tx(utxos[0].txid)
      case None => (txs, false)
      case Some(t) => AddTxs(txs[utxos[0].txid := t], utxos[1..], tx)
  }

  function Refreshed(c: Cache, a: Answers): (Cache, bool) {
    if a.height.None? then (c, false)
    else if a.utxos.None? || !a.addressParses then (c.(height := a.height.value), false)
    else
      var utxos := Parsed(a.utxos.value);
      var (txs, ok) := AddTxs(c.txs, utxos, a.tx);
      (Cache(utxos, txs, a.height.value), ok)
  }

  function Sum(utxos: seq<Utxo>): nat { if utxos == [] then 0 else utxos[0].value + Sum(utxos[1..]) }

  class ChainCacheData {
    var utxos: seq<Utxo>
    var txs: map<Txid, Transaction>
    var height: nat
    ghost var history: seq<Answers>  // what the remote side answered to the refreshes so far

    ghost predicate Valid()
      reads this
    {
      State() == RunCache(history)
    }

    constructor ()
      ensures Valid() && history == []
    {
      utxos, txs, height, history := [], map[], 0, [];
    }

    function State(): Cache
      reads this
    {
      Cache(utxos, txs, height)
    }

    method RefreshChainData(a: Answers) returns (ok: bool)
      requires Valid()
      modifies this
      ensures Valid() && history == old(history) + [a]
      ensures (State(), ok) == Refreshed(old(State()), a)
      ensures ok == Succeeds(history, |history| - 1)
    {
      history := history + [a];
      RunCacheAppends(old(history), a);
      if a.height.None? { return false; }
      height := a.height.value;
      if a.utxos.None? || !a.addressParses { return false; }
      var parsed := Parsed(a.utxos.value);
      utxos := [];
      utxos := utxos + parsed;
      ok := FillTxs(parsed, a.tx);
    }

    /** The loop of the refresh that fetches the transactions one by one, up to the first failure. */
    method FillTxs(parsed: seq<Utxo>, tx: Txid -> Option<Transaction>) returns (ok: bool)
      modifies this`txs
      ensures (txs, ok) == AddTxs(old(txs), parsed, tx)
    {
      var i := 0;
      while i < |parsed|
        invariant 0 <= i <= |parsed|
        invariant AddTxs(txs, parsed[i..], tx) == AddTxs(old(txs), parsed, tx)
      {
        var fetched := tx(parsed[i].txid);
        assert parsed[i..][1..] == parsed[i + 1..];
        if fetched.None? {
          assert AddTxs(txs, parsed[i..], tx) == (txs, false);
          return false;
        }
        txs := txs[parsed[i].txid := fetched.value];
        i := i + 1;
      }
      ok := true;
    }

    /** After a successful refresh, the sum of the parseable outputs that were fetched. */
    method GetBalance() returns (balance: nat)
      requires Valid()
      ensures balance == Sum(utxos)
      ensures history != [] && Succeeds(history, |history| - 1) ==>
                && history[|history| - 1].utxos.Some?
                && balance == Sum(Parsed(history[|history| - 1].utxos.value))
    {
      if history != [] && Succeeds(history, |history| - 1) { RefreshListsOutputs(history); }
      balance := 0;
      for i := |utxos| downto 0
        invariant balance == Sum(utxos[i..])
      {
        assert utxos[i..][1..] == utxos[i + 1..];
        balance := utxos[i].value + balance;
      }
      assert utxos[0..] == utxos;
    }

    /** Found for every output of every successful refresh so far, and always as some refresh fetched it. */
    method GetTransaction(id: Txid) returns (r: Result<Transaction>)
      requires Valid()
      ensures forall k, u ::
                0 <= k < |history| && Succeeds(history, k) && u in RunCache(history[..k + 1]).utxos ==>
                u.txid == id ==> r.Ok?
      ensures r.Ok? ==> exists k :: 0 <= k < |history| && history[k].tx(id) == Some(r.value)
      ensures r == if id in txs then Ok(txs[id]) else Err(BlockchainError)
    {
      forall k, u | 0 <= k < |history| && Succeeds(history, k) && u in RunCache(history[..k + 1]).utxos && u.txid == id
        ensures id in txs
      {
        EarlierOutputsStayFound(history, k, u);
      }
      if id in txs { var k := FoundWasFetched(history, id); }
      r := if id in txs then Ok(txs[id]) else Err(BlockchainError);
    }
  }

  /** Filling the map never removes an entry, and fills in every output exactly when each of their
      transactions can be fetched. */
  lemma {:induction false} AddTxsEffect(txs: map<Txid, Transaction>, utxos: seq<Utxo>, tx: Txid -> Option<Transaction>)
    ensures var (txs', ok) := AddTxs(txs, utxos, tx);
            && txs.Keys <= txs'.Keys
            && (ok <==> forall u :: u in utxos ==> tx(u.txid).Some?)
            && (ok ==> forall u :: u in utxos ==> u.txid in txs' && Some(txs'[u.txid]) == tx(u.txid))
            && (forall id :: id in txs' ==> (id in txs && txs'[id] == txs[id]) || tx(id) == Some(txs'[id]))
    decreases |utxos|
  {
    if utxos != [] {
      assert forall u :: u in utxos <==> u == utxos[0] || u in utxos[1..];
      if tx(utxos[0].txid).Some? {
        AddTxsEffect(txs[utxos[0].txid := tx(utxos[0].txid).value], utxos[1..], tx);
      }
    }
  }

  /** The output as fetched, with its id, index and value. */
  predicate SameOutput(u: Utxo, r: UtxoResp) { r.txid == Some(u.txid) && r.vout == u.vout && r.value == u.value }

  /** How many of the outputs have ids that parse. */
  function ParsedBefore(resps: seq<UtxoResp>): nat {
    if resps == [] then 0 else ParsedBefore(resps[..|resps| - 1]) + if resps[|resps| - 1].txid.Some? then 1 else 0
  }

  lemma {:induction false} ParsedSplit(a: seq<UtxoResp>, b: seq<UtxoResp>)
    ensures Parsed(a + b) == Parsed(a) + Parsed(b)
  {
    if a == [] {
      assert a + b == b;
    } else {
      var head := if a[0].txid.Some? then [Utxo(a[0].txid.value, a[0].vout, a[0].value)] else [];
      ParsedSplit(a[1..], b);
      assert (a + b)[1..] == a[1..] + b && (a + b)[0] == a[0];
      assert Parsed(a) == head + Parsed(a[1..]) && Parsed(a + b) == head + Parsed((a + b)[1..]);
      Regroup(head, Parsed(a[1..]), Parsed(b));
    }
  }

  lemma Regroup(a: seq<Utxo>, b: seq<Utxo>, c: seq<Utxo>)
    ensures a + b + c == a + (b + c)
  {
  }

  lemma {:induction false} ParsedLength(resps: seq<UtxoResp>)
    ensures |Parsed(resps)| == ParsedBefore(resps)
  {
    if resps != [] {
      var (before, last) := (resps[..|resps| - 1], resps[|resps| - 1]);
      ParsedLength(before);
      ParsedSplit(before, [last]);
      assert resps == before + [last] && [last][1..] == [];
    }
  }

  /** What is listed is exactly the outputs whose ids parse: the k-th one fetched, if its id parses, stands
      unchanged after those fetched before it, and nothing else is listed. */
  lemma ParsedExact(resps: seq<UtxoResp>, k: nat)
    requires k < |resps| && resps[k].txid.Some?
    ensures |Parsed(resps)| == ParsedBefore(resps)
    ensures ParsedBefore(resps[..k]) < |Parsed(resps)| && SameOutput(Parsed(resps)[ParsedBefore(resps[..k])], resps[k])
  {
    var (before, rest) := (resps[..k], resps[k..]);
    ParsedLength(resps);
    ParsedLength(before);
    assert resps == before + rest && rest[0] == resps[k];
    ParsedSplit(before, rest);
    assert SameOutput(Parsed(rest)[0], rest[0]);
  }

  /** The sum is additive and the sum of one output is its value. */
  lemma {:induction false} SumAdds(a: seq<Utxo>, b: seq<Utxo>)
    ensures Sum(a + b) == Sum(a) + Sum(b) && Sum([]) == 0
    ensures |a| == 1 ==> Sum(a) == a[0].value
  {
    if a == [] {
      assert a + b == b;
    } else {
      SumAdds(a[1..], b);
      assert (a + b)[1..] == a[1..] + b;
    }
  }

  function RunCache(answers: seq<Answers>): Cache {
    if answers == [] then Cache([], map[], 0)
      else Refreshed(RunCache(answers[..|answers| - 1]), answers[|answers| - 1]).0
  }

  lemma RunCacheAppends(answers: seq<Answers>, a: Answers)
    ensures RunCache(answers + [a]) == Refreshed(RunCache(answers), a).0
    ensures Succeeds(answers + [a], |answers|) == Refreshed(RunCache(answers), a).1
  {
    assert (answers + [a])[..|answers|] == answers;
  }

  predicate Succeeds(answers: seq<Answers>, k: nat)
    requires k < |answers|
  {
    Refreshed(RunCache(answers[..k]), answers[k]).1
  }

  /** After every successful refresh the cache lists exactly the parseable outputs in order. */
  lemma RefreshListsOutputs(answers: seq<Answers>)
    requires answers != [] && Succeeds(answers, |answers| - 1)
    ensures var last := answers[|answers| - 1];
            last.utxos.Some? && RunCache(answers).utxos == Parsed(last.utxos.value)
            && forall u :: u in RunCache(answers).utxos ==>
                 Found(RunCache(answers), u.txid).Some? && Found(RunCache(answers), u.txid) == last.tx(u.txid)
  {
    var last := answers[|answers| - 1];
    AddTxsEffect(RunCache(answers[..|answers| - 1]).txs, Parsed(last.utxos.value), last.tx);
  }

  /** A refresh succeeds exactly when every request is answered and the address parses; a failed one
      keeps the old listing or already has the new one, and loses no transaction. */
  lemma RefreshSucceedsIff(c: Cache, a: Answers)
    ensures var (c', ok) := Refreshed(c, a);
            && (ok <==> && a.height.Some? && a.utxos.Some? && a.addressParses
                        && forall u :: u in Parsed(a.utxos.value) ==> a.tx(u.txid).Some?)
            && (c'.utxos == c.utxos || (a.utxos.Some? && c'.utxos == Parsed(a.utxos.value)))
            && c.txs.Keys <= c'.txs.Keys
            && c'.height == (if a.height.Some? then a.height.value else c.height)
            && (!ok && (a.height.None? || a.utxos.None? || !a.addressParses) ==> c'.utxos == c.utxos && c'.txs == c.txs)
  {
    if a.utxos.Some? { AddTxsEffect(c.txs, Parsed(a.utxos.value), a.tx); }
  }

  function Found(c: Cache, id: Txid): Option<Transaction> { if id in c.txs then Some(c.txs[id]) else None }

  /** What is found was fetched by one of the refreshes. */
  lemma {:induction false} FoundWasFetched(answers: seq<Answers>, id: Txid) returns (k: nat)
    requires Found(RunCache(answers), id).Some?
    ensures k < |answers| && answers[k].tx(id) == Found(RunCache(answers), id)
  {
    var before, last := answers[..|answers| - 1], answers[|answers| - 1];
    k := |answers| - 1;
    if last.utxos.Some? { AddTxsEffect(RunCache(before).txs, Parsed(last.utxos.value), last.tx); }
    if Found(RunCache(answers), id) != last.tx(id) { k := FoundWasFetched(before, id); }
  }

  /** The transaction map never shrinks, so the transactions of all outputs of an earlier successful
      refresh are still found after any number of later refreshes, successful or not. */
  lemma {:induction false} EarlierOutputsStayFound(answers: seq<Answers>, k: nat, u: Utxo)
    requires k < |answers| && Succeeds(answers, k) && u in RunCache(answers[..k + 1]).utxos
    ensures Found(RunCache(answers), u.txid).Some?
    decreases |answers|
  {
    var before, last := answers[..|answers| - 1], answers[|answers| - 1];
    if k == |answers| - 1 {
      assert answers[..k + 1] == answers;
      RefreshListsOutputs(answers);
      AddTxsEffect(RunCache(before).txs, Parsed(last.utxos.value), last.tx);
    } else {
      assert before[..k] == answers[..k] && before[..k + 1] == answers[..k + 1];
      EarlierOutputsStayFound(before, k, u);
      if last.utxos.Some? { AddTxsEffect(RunCache(before).txs, Parsed(last.utxos.value), last.tx); }
    }
  }
}
