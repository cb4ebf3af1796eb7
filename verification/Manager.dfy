/** The manager itself: message handlers and periodic checks that write the store in place and
    broadcast. Each is proved to take the step of the lifecycle that the run theorems are about. */
module Manager {
  import opened Base
  import opened Contracts
  import opened ContractStore
  import opened Closable
  import opened Lifecycle

  datatype Reply = NoReply | SignReply(sign: SignDlc)

  function AsReply<T>(r: Result<T>, reply: T -> Reply): Result<Reply> {
    match r
    case Ok(t) => Ok(reply(t))
    case Err(e) => Err(e)
  }

  /** The outcome of the rest of a loop, after what the part already done has listed. */
  function Onto(affected: seq<Entry>, rest: (Node, Result<seq<Entry>>)): (Node, Result<seq<Entry>>) {
    match rest.1
    case Ok(entries) => (rest.0, Ok(affected + entries))
    case Err(_) => rest
  }

  /** One turn of a loop of the periodic check. */
  lemma StageTurn(cfg: Config, n: Node, contracts: seq<Contract>, i: nat, at: ContractId -> Env, affected: seq<Entry>)
    requires i < |contracts|
    ensures var (n1, v) := CheckContract(cfg, n, contracts[i], at(GetId(contracts[i])));
            var event := EventIdOf(contracts[i]);
            Onto(affected, RunStage(cfg, n, contracts[i..], at)) ==
              if v != Advanced then Onto(affected, RunStage(cfg, n1, contracts[i + 1..], at))
              else if event.None? then (n1, Err(InvalidState))
              else Onto(affected + [(GetId(contracts[i]), event.value)], RunStage(cfg, n1, contracts[i + 1..], at))
  {
    assert contracts[i..][1..] == contracts[i + 1..] && contracts[i..][0] == contracts[i];
    var (n1, v) := CheckContract(cfg, n, contracts[i], at(GetId(contracts[i])));
    var rest, event := RunStage(cfg, n1, contracts[i + 1..], at).1, EventIdOf(contracts[i]);
    if rest.Ok? && event.Some? {
      var entry := [(GetId(contracts[i]), event.value)];
      assert affected + (entry + rest.value) == affected + entry + rest.value;
    }
  }

  class Manager {
    const cfg: Config
    var store: Store
    var sent: seq<Broadcast>

    constructor (cfg: Config)
      ensures this.cfg == cfg && State() == Node(map[], [])
    {
      this.cfg, store, sent := cfg, map[], [];
    }

    function State(): Node
      reads this
    {
      Node(store, sent)
    }

    method UpdateContract(c: Contract, env: Env) returns (ok: bool)
      modifies this
      ensures (State(), ok) == Lifecycle.Put(old(State()), c, env)
    {
      var r := Update(store, c, env.write(GetId(c)));
      store, ok := r.0, r.1;
    }

    method CreateContract(o: OfferedContract, env: Env) returns (ok: bool)
      modifies this
      ensures (State(), ok) == NewOffer(old(State()), o, env)
    {
      var r := Create(store, o, env.write(o.id).written);
      store, ok := r.0, r.1;
    }

    method SendTransaction(b: Broadcast, env: Env) returns (ok: bool)
      modifies this
      ensures ok == env.send(b.txid)
      ensures State() == if ok then Send(old(State()), b) else old(State())
    {
      ok := env.send(b.txid);
      if ok { sent := sent + [b]; }
    }

    /** The lookup that every handler starts with. */
    method GetContractInvolving(id: ContractId, peer: Option<PeerId>, env: Env) returns (r: Result<Contract>)
      ensures r == Fetch(State(), id, peer, env)
    {
      if !env.read { return Err(StorageError); }
      if id !in store { return Err(InvalidParameters); }
      var c := store[id];
      if peer.Some? && GetCounterParty(c) != peer.value { return Err(InvalidParameters); }
      r := Ok(c);
    }

    method SendOffer(built: Result<OfferedContract>, env: Env) returns (r: Result<OfferDlc>)
      modifies this
      ensures (State(), r) == Lifecycle.SendOffer(cfg, old(State()), built, env)
    {
      if cfg.oracles.None? { return Err(InvalidParameters); }
      match built
      case Err(e) => r := Err(e);
      case Ok(o) =>
        var ok := CreateContract(o, env);
        r := if ok then Ok(OfferDlc(o.id, o.infos)) else Err(StorageError);
    }

    method OnOfferMessage(m: OfferDlc, counterParty: PeerId, env: Env) returns (r: Result<()>)
      modifies this
      ensures (State(), r) == OnOffer(cfg, old(State()), m, counterParty, env)
    {
      if !cfg.lib.validOffer(m) { return Err(InvalidParameters); }
      var contract := OfferedContract(m.temporaryId, counterParty, m.infos);
      if !env.read { return Err(StorageError); }
      if contract.id in store { return Err(InvalidParameters); }
      var ok := CreateContract(contract, env);
      r := if ok then Ok(()) else Err(StorageError);
    }

    method AcceptContractOffer(id: ContractId, draw: nat, env: Env) returns (r: Result<(ContractId, PeerId, AcceptDlc)>)
      modifies this
      ensures (State(), r) == Lifecycle.AcceptContractOffer(cfg, old(State()), id, draw, env)
    {
      var found := GetContractInvolving(id, None, env);
      if found.Err? { return Err(found.error); }
      if !found.value.Offered? { return Err(InvalidState); }
      var offered := found.value.offer;
      match cfg.lib.accept(offered, draw)
      case Err(e) => r := Err(e);
      case Ok((accepted, message)) =>
        if !env.imported { return Err(WalletError); }
        var ok := UpdateContract(Accepted(accepted), env);
        if !ok { return Err(StorageError); }
        r := Ok((accepted.contractId, offered.counterParty, message));
    }

    method OnAcceptMessage(m: AcceptDlc, counterParty: PeerId, env: Env) returns (r: Result<SignDlc>)
      modifies this
      ensures (State(), r) == OnAccept(cfg, old(State()), m, counterParty, env)
    {
      var found := GetContractInvolving(m.temporaryId, Some(counterParty), env);
      if found.Err? { return Err(found.error); }
      if !found.value.Offered? { return Err(InvalidState); }
      var offered := found.value.offer;
      match cfg.lib.verifyAccept(offered, m)
      case Err(e) =>
        var ok := UpdateContract(FailedAccept(FailedAcceptContract(offered, m, e)), env);
        r := Err(if ok then e else StorageError);
      case Ok((signed, message)) =>
        if !env.imported { return Err(WalletError); }
        var ok := UpdateContract(Signed(signed), env);
        r := if ok then Ok(message) else Err(StorageError);
    }

    method OnSignMessage(m: SignDlc, peer: PeerId, env: Env) returns (r: Result<()>)
      modifies this
      ensures (State(), r) == OnSign(cfg, old(State()), m, peer, env)
    {
      var found := GetContractInvolving(m.contractId, Some(peer), env);
      if found.Err? { return Err(found.error); }
      if !found.value.Accepted? { return Err(InvalidState); }
      var accepted := found.value.accept;
      match cfg.lib.verifySign(accepted, m)
      case Err(e) =>
        var ok := UpdateContract(FailedSign(FailedSignContract(accepted, m, e)), env);
        r := Err(if ok then e else StorageError);
      case Ok((signed, fund)) =>
        var stored := UpdateContract(Signed(signed), env);
        if !stored { return Err(StorageError); }
        var ok := SendTransaction(FundTx(signed.accepted.contractId, fund), env);
        r := if ok then Ok(()) else Err(BlockchainError);
    }

    method OnDlcMessage(m: Message, counterParty: PeerId, env: Env) returns (r: Result<Reply>)
      modifies this
      ensures State() == match m
                case OfferMessage(o) => OnOffer(cfg, old(State()), o, counterParty, env).0
                case AcceptMessage(a) => OnAccept(cfg, old(State()), a, counterParty, env).0
                case SignMessage(s) => OnSign(cfg, old(State()), s, counterParty, env).0
                case OtherMessage => old(State())
      ensures r == match m
                case OfferMessage(o) => AsReply(OnOffer(cfg, old(State()), o, counterParty, env).1, _ => NoReply)
                case AcceptMessage(a) => AsReply(OnAccept(cfg, old(State()), a, counterParty, env).1, s => SignReply(s))
                case SignMessage(s) => AsReply(OnSign(cfg, old(State()), s, counterParty, env).1, _ => NoReply)
                case OtherMessage => Err(InvalidState)
    {
      match m
      case OfferMessage(o) =>
        var done := OnOfferMessage(o, counterParty, env);
        r := if done.Ok? then Ok(NoReply) else Err(done.error);
      case AcceptMessage(a) =>
        var reply := OnAcceptMessage(a, counterParty, env);
        r := if reply.Ok? then Ok(SignReply(reply.value)) else Err(reply.error);
      case SignMessage(s) =>
        var done := OnSignMessage(s, counterParty, env);
        r := if done.Ok? then Ok(NoReply) else Err(done.error);
      case OtherMessage => r := Err(InvalidState);
    }

    // The checks.

    method CheckSignedContract(s: SignedContract, env: Env) returns (v: Verdict)
      modifies this
      ensures (State(), v) == CheckSigned(old(State()), s, env)
    {
      match env.confirmations(s.accepted.fundTxid)
      case None => v := Failed;
      case Some(confirmations) =>
        v := Quiet;
        if confirmations >= NB_CONFIRMATIONS {
          var ok := UpdateContract(Confirmed(s), env);
          v := if ok then Advanced else Failed;
        }
    }

    method CloseContract(s: SignedContract, cet: Txid, attestations: seq<Attestation>, env: Env)
        returns (r: Result<Contract>)
      modifies this
      ensures (State(), r) == Lifecycle.CloseContract(cfg, old(State()), s, cet, attestations, env)
    {
      match env.confirmations(cet)
      case None => r := Err(BlockchainError);
      case Some(confirmations) =>
        if confirmations < 1 {
          var ok := SendTransaction(CetTx(s.accepted.contractId, cet), env);
          if !ok { return Err(BlockchainError); }
          r := Ok(PreClosed(PreClosedContract(s, Some(attestations), cet)));
        } else if confirmations < NB_CONFIRMATIONS {
          r := Ok(PreClosed(PreClosedContract(s, Some(attestations), cet)));
        } else {
          r := Ok(ClosedFrom(cfg, s, Some(attestations), cet));
        }
    }

    method CheckRefund(s: SignedContract, env: Env) returns (v: Verdict)
      modifies this
      ensures (State(), v) == Lifecycle.CheckRefund(cfg, old(State()), s, env)
    {
      if env.now.None? { return Failed; }
      v := Quiet;
      if s.accepted.refundLockTime <= env.now.value {
        var confirmations := env.confirmations(s.accepted.refundTxid);
        if confirmations.None? { return Failed; }
        if confirmations.value == 0 {
          match cfg.lib.signedRefund(s) {
            case Err(_) => return Failed;
            case Ok(refund) =>
              var sentOk := SendTransaction(RefundTx(s.accepted.contractId, refund, s.accepted.refundLockTime,
                env.now.value), env);
              if !sentOk { return Failed; }
          }
        }
        var ok := UpdateContract(Refunded(s), env);
        v := if ok then Quiet else Failed;
      }
    }

    method CheckConfirmedContract(s: SignedContract, env: Env) returns (v: Verdict)
      modifies this
      ensures (State(), v) == CheckConfirmed(cfg, old(State()), s, env)
    {
      var closable := GetClosableContractInfo(cfg.oracles, env.attest, s.accepted.offered.infos,
        s.accepted.adaptorInfos);
      if closable.Ok? && closable.value.Some? {
        var found := closable.value.value;
        match cfg.lib.signedCet(s, found.info, found.adaptor, found.attestations) {
          case Err(_) => return Failed;
          case Ok(cet) =>
            var closed := CloseContract(s, cet, AttestationsOf(found.attestations), env);
            if closed.Err? { return Failed; }
            var ok := UpdateContract(closed.value, env);
            return if ok then Advanced else Failed;
        }
      }
      v := CheckRefund(s, env);
    }

    method CheckPreClosedContract(p: PreClosedContract, env: Env) returns (v: Verdict)
      modifies this
      ensures (State(), v) == CheckPreClosed(cfg, old(State()), p, env)
    {
      match env.confirmations(p.signedCet)
      case None => v := Failed;
      case Some(confirmations) =>
        v := Quiet;
        if confirmations >= NB_CONFIRMATIONS {
          var ok := UpdateContract(ClosedFrom(cfg, p.signed, p.attestations, p.signedCet), env);
          v := if ok then Advanced else Failed;
        }
    }

    // The loops.

    /** The stored contracts of one stage, in no particular order. */
    method GetContractsOf(stage: Stage) returns (listed: seq<Contract>)
      ensures Filed(store) ==> Lists(store, stage, listed)
    {
      listed := [];
      var left := store.Keys;
      while left != {}
        invariant left <= store.Keys
        invariant Filed(store) ==> forall c ::
                    c in listed <==> InStage(stage, c) && GetId(c) in store.Keys - left && store[GetId(c)] == c
        invariant Filed(store) ==> forall i, j :: 0 <= i < j < |listed| ==> GetId(listed[i]) != GetId(listed[j])
        decreases |left|
      {
        var id :| id in left;
        if InStage(stage, store[id]) { listed := listed + [store[id]]; }
        left := left - {id};
      }
    }

    /** One loop of the periodic check; `listing` says whether its listing answers. */
    method CheckContracts(stage: Stage, listing: bool, at: ContractId -> Env)
        returns (r: Result<seq<Entry>>, ghost listed: seq<Contract>)
      requires Filed(store)
      modifies this
      ensures listing ==> Lists(old(store), stage, listed)
      ensures (State(), r) == if listing then RunStage(cfg, old(State()), listed, at)
              else (old(State()), Err(StorageError))
      ensures Filed(store)
    {
      if !listing { return Err(StorageError), []; }
      var contracts := GetContractsOf(stage);
      listed := contracts;
      var affected: seq<Entry> := [];
      ghost var whole := RunStage(cfg, State(), contracts, at);
      var i := 0;
      assert contracts[0..] == contracts && Onto([], whole) == whole by {
        if whole.1.Ok? { assert [] + whole.1.value == whole.1.value; }
      }
      while i < |contracts|
        invariant 0 <= i <= |contracts| && Filed(store)
        invariant whole == Onto(affected, RunStage(cfg, State(), contracts[i..], at))
      {
        var c := contracts[i];
        StageTurn(cfg, State(), contracts, i, at, affected);
        var v := CheckOne(c, at(GetId(c)));
        if v == Advanced {
          var event := EventIdOf(c);
          if event.None? { return Err(InvalidState), contracts; }
          affected := affected + [(GetId(c), event.value)];
        }
        i := i + 1;
      }
      assert contracts[i..] == [] && affected + [] == affected;
      r := Ok(affected);
    }

    method CheckOne(c: Contract, env: Env) returns (v: Verdict)
      requires Filed(store)
      modifies this
      ensures (State(), v) == CheckContract(cfg, old(State()), c, env)
      ensures Filed(store)
    {
      match c
      case Signed(s) => v := CheckSignedContract(s, env);
      case Confirmed(s) =>
        if s.channelId.Some? { return Quiet; }
        v := CheckConfirmedContract(s, env);
      case PreClosed(p) => v := CheckPreClosedContract(p, env);
      case _ => v := Quiet;
    }

    method PeriodicCheck(w: PassWorld)
        returns (r: Result<seq<Entry>>, ghost l1: seq<Contract>, ghost l2: seq<Contract>, ghost l3: seq<Contract>)
      requires Filed(store)
      modifies this
      ensures (State(), r) == RunPass(cfg, old(State()), l1, l2, l3, w)
      ensures PassLists(cfg, old(State()), l1, l2, l3, w)
      ensures Filed(store)
    {
      l2, l3 := [], [];
      var r1, r2, r3;
      r1, l1 := CheckContracts(SignedStage, w.list(SignedStage), w.check(SignedStage));
      if r1.Err? { return r1, l1, [], []; }
      r2, l2 := CheckContracts(ConfirmedStage, w.list(ConfirmedStage), w.check(ConfirmedStage));
      if r2.Err? { return r2, l1, l2, []; }
      r3, l3 := CheckContracts(PreClosedStage, w.list(PreClosedStage), w.check(PreClosedStage));
      if r3.Err? { return r3, l1, l2, l3; }
      r := Ok(r1.value + r2.value + r3.value);
    }
  }
}
