/** A check of one contract reads and writes that contract's record only. */
module CheckLocality {
  import opened Contracts
  import opened ContractStore
  import opened Lifecycle

  /** From `n` and `m`, which hold the same record `id`, two steps led to `n'` and `m'`: the record is
      again the same, every other one is as before, and the same was broadcast. */
  ghost predicate SameStep(n: Node, n': Node, m: Node, m': Node, id: ContractId) {
    && id in n'.store && id in m'.store && n'.store[id] == m'.store[id]
    && n'.store == n.store[id := n'.store[id]]
    && m'.store == m.store[id := m'.store[id]]
    && n.sent <= n'.sent && m.sent <= m'.sent && n'.sent[|n.sent|..] == m'.sent[|m.sent|..]
  }

  lemma RecordLocal(n: Node, m: Node, c: Contract, next: Contract, v: Verdict, env: Env)
    requires Holds(n.store, c) && Holds(m.store, c) && GetId(next) == GetId(c) && !MovesId(next)
    ensures SameStep(n, Record(n, next, v, env).0, m, Record(m, next, v, env).0, GetId(c))
    ensures Record(n, next, v, env).1 == Record(m, next, v, env).1
  {
    assert n.store[GetId(c) := c] == n.store && m.store[GetId(c) := c] == m.store;
  }

  lemma RefundLocal(cfg: Config, n: Node, m: Node, s: SignedContract, env: Env)
    requires Holds(n.store, Confirmed(s)) && Holds(m.store, Confirmed(s))
    ensures SameStep(n, CheckRefund(cfg, n, s, env).0, m, CheckRefund(cfg, m, s, env).0, s.accepted.contractId)
    ensures CheckRefund(cfg, n, s, env).1 == CheckRefund(cfg, m, s, env).1
  {
    var c := Confirmed(s);
    assert n.store[GetId(c) := c] == n.store && m.store[GetId(c) := c] == m.store;
    RecordLocal(n, m, c, Refunded(s), Quiet, env);
    if env.now.Some? && cfg.lib.signedRefund(s).Ok? {
      var b := RefundTx(GetId(c), cfg.lib.signedRefund(s).value, s.accepted.refundLockTime, env.now.value);
      RecordLocal(Send(n, b), Send(m, b), c, Refunded(s), Quiet, env);
    }
  }

  lemma ClosingLocal(cfg: Config, n: Node, m: Node, s: SignedContract, env: Env)
    requires Holds(n.store, Confirmed(s)) && Holds(m.store, Confirmed(s)) && ClosableOf(cfg, s, env).Some?
    ensures SameStep(n, CheckConfirmed(cfg, n, s, env).0, m, CheckConfirmed(cfg, m, s, env).0, s.accepted.contractId)
    ensures CheckConfirmed(cfg, n, s, env).1 == CheckConfirmed(cfg, m, s, env).1
  {
    var c, found := Confirmed(s), ClosableOf(cfg, s, env).value;
    assert n.store[GetId(c) := c] == n.store && m.store[GetId(c) := c] == m.store;
    match cfg.lib.signedCet(s, found.info, found.adaptor, found.attestations)
    case Err(_) =>
    case Ok(cet) =>
      var (n1, r) := CloseContract(cfg, n, s, cet, AttestationsOf(found.attestations), env);
      var (m1, q) := CloseContract(cfg, m, s, cet, AttestationsOf(found.attestations), env);
      assert r == q;
      if r.Ok? { RecordLocal(n1, m1, c, r.value, Advanced, env); }
  }

  lemma CheckLocal(cfg: Config, n: Node, m: Node, c: Contract, env: Env)
    requires Holds(n.store, c) && Holds(m.store, c)
    ensures SameStep(n, CheckContract(cfg, n, c, env).0, m, CheckContract(cfg, m, c, env).0, GetId(c))
    ensures CheckContract(cfg, n, c, env).1 == CheckContract(cfg, m, c, env).1
  {
    assert n.store[GetId(c) := c] == n.store && m.store[GetId(c) := c] == m.store;
    match c
    case Signed(s) => RecordLocal(n, m, c, Confirmed(s), Advanced, env);
    case Confirmed(s) =>
      if s.channelId.None? {
        if ClosableOf(cfg, s, env).Some? { ClosingLocal(cfg, n, m, s, env); } else { RefundLocal(cfg, n, m, s, env); }
      }
    case PreClosed(p) => RecordLocal(n, m, c, ClosedFrom(cfg, p.signed, p.attestations, p.signedCet), Advanced, env);
    case _ =>
  }
}
