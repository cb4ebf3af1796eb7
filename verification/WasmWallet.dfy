/** The browser wallet's protocol steps: short sequences of manager and store calls. */
module WasmWallet {
  import opened Base
  import opened Contracts
  import opened ContractStore
  import opened Lifecycle
  import M = Manager

  class JsDlcInterface {
    const manager: M.Manager
    const routerId: PeerId  // the counterparty id, the same for every offer

    constructor (manager: M.Manager, routerId: PeerId)
      ensures this.manager == manager && this.routerId == routerId
    {
      this.manager, this.routerId := manager, routerId;
    }

    /** Receive the offer, then accept it; each part has its own outside world. */
    method AcceptOffer(m: OfferDlc, draw: nat, env1: Env, env2: Env) returns (r: Result<AcceptDlc>)
      modifies manager
      ensures var (n1, r1) := OnOffer(manager.cfg, old(manager.State()), m, routerId, env1);
              var (n2, r2) := AcceptContractOffer(manager.cfg, n1, m.temporaryId, draw, env2);
              if r1.Err? then manager.State() == n1 && r == Err(r1.error)
              else manager.State() == n2 && r == if r2.Ok? then Ok(r2.value.2) else Err(r2.error)
    {
      var offered := manager.OnDlcMessage(OfferMessage(m), routerId, env1);
      if offered.Err? { return Err(offered.error); }
      var accepted := manager.AcceptContractOffer(m.temporaryId, draw, env2);
      r := if accepted.Ok? then Ok(accepted.value.2) else Err(accepted.error);
    }

    /** Handle the Sign message, then look the contract up among the signed ones. The answer is the id
        of the funding transaction that was just broadcast, and there is one exactly when the
        message was handled and the listing answered, which `listing` says. */
    method CountersignAndBroadcast(m: SignDlc, env: Env, listing: bool) returns (r: Result<Txid>)
      requires Filed(manager.store) && manager.cfg.lib.Sound()
      modifies manager
      ensures manager.State() == OnSign(manager.cfg, old(manager.State()), m, routerId, env).0
      ensures r.Ok? <==> OnSign(manager.cfg, old(manager.State()), m, routerId, env).1.Ok? && listing
      ensures r.Ok? ==> manager.sent == old(manager.sent) + [FundTx(m.contractId, r.value)]
      ensures r.Ok? ==> m.contractId in manager.store && manager.store[m.contractId].Signed?
    {
      var handled := manager.OnDlcMessage(SignMessage(m), routerId, env);
      if handled.Err? { return Err(handled.error); }
      if !listing { return Err(StorageError); }
      var listed := manager.GetContractsOf(SignedStage);
      ghost var signed := manager.store[m.contractId];
      assert signed in listed;
      var i := 0;
      while i < |listed|
        invariant 0 <= i <= |listed|
        invariant forall j :: 0 <= j < i ==> GetId(listed[j]) != m.contractId
      {
        if GetId(listed[i]) == m.contractId {
          assert listed[i] == signed;
          return Ok(listed[i].signed.accepted.fundTxid);
        }
        i := i + 1;
      }
      assert false;
    }

    method RejectOffer(id: ContractId, env: Env) returns (r: Result<()>)
      requires Filed(manager.store)
      modifies manager
      ensures (manager.State(), r) == Lifecycle.RejectOffer(old(manager.State()), id, env)
    {
      if !env.read { return Err(StorageError); }
      if id in manager.store && manager.store[id].Offered? {
        var ok := manager.UpdateContract(Rejected(manager.store[id].offer), env);
        if !ok { return Err(StorageError); }
      }
      r := Ok(());
    }
  }
}
