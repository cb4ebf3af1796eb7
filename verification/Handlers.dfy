/** What the answer of each handler tells its caller: exactly when it succeeds, what is then on record, and
    why it was refused. */
module Handlers {
  import opened Base
  import opened Contracts
  import opened ContractStore
  import opened Lifecycle

  /** The node with this one record written. */
  function With(n: Node, id: ContractId, c: Contract): Node { n.(store := n.store[id := c]) }

  /** Why a message that names a contract is refused before anything is done: the lookup failed, there is
      no such contract of this peer, or it is in another state. */
  function Refusal(n: Node, id: ContractId, peer: Option<PeerId>, env: Env): Error {
    if !env.read then StorageError
    else if id in n.store && (peer.None? || GetCounterParty(n.store[id]) == peer.value) then InvalidState
    else InvalidParameters
  }

  /** An offer is answered exactly when there are oracles, it could be built, and it was stored under an
      unused id; the answer carries that id and its terms. */
  lemma OfferAnswered(cfg: Config, n: Node, built: Result<OfferedContract>, env: Env)
    ensures var (n', r) := SendOffer(cfg, n, built, env);
            && (r.Ok? <==>
                  && cfg.oracles.Some? && built.Ok?
                  && built.value.id !in n.store && env.write(built.value.id).written)
            && (r.Ok? ==>
                  && n' == With(n, built.value.id, Offered(built.value))
                  && r.value == OfferDlc(built.value.id, built.value.infos))
            && (r.Err? ==> n' == n)
            && (r.Err? ==>
                  r.error ==
                    if cfg.oracles.None? then InvalidParameters else if built.Err? then built.error else StorageError)
  {
  }

  /** An offer message is taken in exactly when it is valid, its id is unused, and it was stored; the
      sender is recorded as counterparty. */
  lemma OfferTakenIn(cfg: Config, n: Node, m: OfferDlc, peer: PeerId, env: Env)
    ensures var (n', r) := OnOffer(cfg, n, m, peer, env);
            var id := m.temporaryId;
            && (r.Ok? <==> cfg.lib.validOffer(m) && env.read && id !in n.store && env.write(id).written)
            && (r.Ok? ==> n' == With(n, id, Offered(OfferedContract(id, peer, m.infos))))
            && (r.Err? ==> n' == n)
            && (r.Err? ==>
                  r.error ==
                    if !cfg.lib.validOffer(m) || (env.read && id in n.store) then InvalidParameters else StorageError)
  {
  }

  /** An acceptance is answered exactly when the id is that of an Offered record, the library accepts it,
      the address is watched, and the Accepted record was stored, which it then is, with the library's
      message for the offer's counterparty. */
  lemma AcceptanceAnswered(cfg: Config, n: Node, id: ContractId, draw: nat, env: Env)
    ensures var (n', r) := AcceptContractOffer(cfg, n, id, draw, env);
            var known := env.read && id in n.store && n.store[id].Offered?;
            && n'.sent == n.sent
            && (!known ==> n' == n && r == Err(Refusal(n, id, None, env)))
            && (known ==>
                  match cfg.lib.accept(n.store[id].offer, draw)
                  case Err(e) => n' == n && r == Err(e)
                  case Ok((a, message)) =>
                    && (r.Ok? <==> env.imported && env.write(a.contractId).written)
                    && (r.Ok? ==>
                          && r.value == (a.contractId, n.store[id].offer.counterParty, message)
                          && a.contractId in n'.store && n'.store[a.contractId] == Accepted(a))
                    && (r.Err? ==> r.error == if env.imported then StorageError else WalletError))
  {
  }

  /** An offer is rejected exactly when the lookup answers and an Offered record, if there is one, was
      overwritten as Rejected, which it then is. */
  lemma RejectionRecorded(n: Node, id: ContractId, env: Env)
    requires Filed(n.store)
    ensures var (n', r) := RejectOffer(n, id, env);
            var offered := id in n.store && n.store[id].Offered?;
            && (r.Ok? <==> env.read && (offered ==> env.write(id).written))
            && (r.Ok? && offered ==> n' == With(n, id, Rejected(n.store[id].offer)))
            && (r.Err? || !offered ==> n' == n)
            && (r.Err? ==> r.error == StorageError)
  {
  }

  /** An accept message is answered exactly when it comes from the counterparty of an Offered record, the
      library verifies it, the address is watched, and the Signed record was stored, which it then is.
      If the library refuses it, that is recorded with its reason. */
  lemma AcceptAnswered(cfg: Config, n: Node, m: AcceptDlc, peer: PeerId, env: Env)
    requires Filed(n.store)
    ensures var (n', r) := OnAccept(cfg, n, m, peer, env);
            var id := m.temporaryId;
            var known := env.read && id in n.store && n.store[id].Offered? && n.store[id].offer.counterParty == peer;
            && n'.sent == n.sent
            && (!known ==> n' == n && r == Err(Refusal(n, id, Some(peer), env)))
            && (known ==>
                  match cfg.lib.verifyAccept(n.store[id].offer, m)
                  case Err(e) =>
                    if env.write(id).written
                    then r == Err(e) && n' == With(n, id, FailedAccept(FailedAcceptContract(n.store[id].offer, m, e)))
                    else r == Err(StorageError) && n' == n
                  case Ok((s, message)) =>
                    var cid := s.accepted.contractId;
                    && (r.Ok? <==> env.imported && env.write(cid).written)
                    && (r.Ok? ==> r.value == message && cid in n'.store && n'.store[cid] == Signed(s))
                    && (r.Err? ==> r.error == if env.imported then StorageError else WalletError))
  {
  }

  /** A sign message is handled exactly when it comes from the counterparty of an Accepted record, the
      library verifies it, the Signed record was stored, and the funding transaction was broadcast. If
      the library refuses it, that is recorded with its reason. */
  lemma SignHandled(cfg: Config, n: Node, m: SignDlc, peer: PeerId, env: Env)
    requires Filed(n.store) && cfg.lib.Sound()
    ensures var (n', r) := OnSign(cfg, n, m, peer, env);
            var id := m.contractId;
            var known :=
              env.read && id in n.store && n.store[id].Accepted? && n.store[id].accept.offered.counterParty == peer;
            && (!known ==> n' == n && r == Err(Refusal(n, id, Some(peer), env)))
            && (known ==>
                  var a := n.store[id].accept;
                  match cfg.lib.verifySign(a, m)
                  case Err(e) =>
                    if env.write(id).written
                    then r == Err(e) && n' == With(n, id, FailedSign(FailedSignContract(a, m, e)))
                    else r == Err(StorageError) && n' == n
                  case Ok((s, _)) =>
                    && (r.Ok? <==> env.write(id).written && env.send(a.fundTxid))
                    && (env.write(id).written ==> id in n'.store && n'.store[id] == Signed(s))
                    && n'.sent == (if r.Ok? then n.sent + [FundTx(id, a.fundTxid)] else n.sent)
                    && (r.Err? ==> r.error == if env.write(id).written then BlockchainError else StorageError))
  {
  }
}
