/** What the protocol achieves: when five messages fund a contract, and what passes of the periodic
    check then broadcast and record until it is closed or refunded. */
module Settlement {
  import opened Base
  import opened Contracts
  import opened ContractStore
  import opened Closable
  import opened Lifecycle
  import opened CheckLocality
  import opened NodeRuns
  import opened Periodic

  // Negotiation.

  /** The router `n` offers, the wallet `m` receives and accepts, the router signs, the wallet
      countersigns; the i-th step is taken in `env(i)`, and the first failure ends it. */
  function Negotiate(rc: Config, wc: Config, n: Node, m: Node, o: OfferedContract, routerId: PeerId, draw: nat,
                     env: nat -> Env): (Node, Node, Result<()>) {
    match SendOffer(rc, n, Ok(o), env(0))
    case (n1, Err(e)) => (n1, m, Err(e))
    case (n1, Ok(offer)) =>
      match OnOffer(wc, m, offer, routerId, env(1))
      case (m1, Err(e)) => (n1, m1, Err(e))
      case (m1, Ok(_)) =>
        match AcceptContractOffer(wc, m1, o.id, draw, env(2))
        case (m2, Err(e)) => (n1, m2, Err(e))
        case (m2, Ok((_, _, accept))) =>
          match OnAccept(rc, n1, accept, o.counterParty, env(3))
          case (n2, Err(e)) => (n2, m2, Err(e))
          case (n2, Ok(sign)) =>
            var (m3, r) := OnSign(wc, m2, sign, routerId, env(4));
            (n2, m3, r)
  }

  /** The offer as the wallet stores it. */
  function Received(o: OfferedContract, routerId: PeerId): OfferedContract { OfferedContract(o.id, routerId, o.infos) }

  /** The wallet's library accepts the offer. */
  predicate Acceptable(wc: Config, o: OfferedContract, routerId: PeerId, draw: nat) {
    wc.lib.validOffer(OfferDlc(o.id, o.infos)) && wc.lib.accept(Received(o, routerId), draw).Ok?
  }

  predicate Signable(rc: Config, wc: Config, o: OfferedContract, routerId: PeerId, draw: nat)
    requires Acceptable(wc, o, routerId, draw)
  {
    rc.lib.verifyAccept(o, wc.lib.accept(Received(o, routerId), draw).value.1).Ok?
  }

  predicate Countersignable(rc: Config, wc: Config, o: OfferedContract, routerId: PeerId, draw: nat)
    requires Acceptable(wc, o, routerId, draw) && Signable(rc, wc, o, routerId, draw)
  {
    var (a, accept) := wc.lib.accept(Received(o, routerId), draw).value;
    wc.lib.verifySign(a, rc.lib.verifyAccept(o, accept).value.1).Ok?
  }

  /** The accept message answers the offer, and offer and accept determine the contract id. Neither id
      is in use by either party. */
  ghost predicate IdsAgree(rc: Config, wc: Config, n: Node, m: Node, o: OfferedContract, routerId: PeerId, draw: nat) {
    && o.id !in n.store && o.id !in m.store
    && (Acceptable(wc, o, routerId, draw) ==>
          var (a, accept) := wc.lib.accept(Received(o, routerId), draw).value;
          && accept.temporaryId == o.id && a.contractId != o.id
          && a.contractId !in n.store && a.contractId !in m.store
          && (Signable(rc, wc, o, routerId, draw) ==>
                rc.lib.verifyAccept(o, accept).value.0.accepted.contractId == a.contractId))
  }

  lemma OfferArrives(rc: Config, wc: Config, n: Node, m: Node, o: OfferedContract, routerId: PeerId, env: nat -> Env)
    requires rc.oracles.Some? && Smooth(env(0)) && Smooth(env(1)) && o.id !in n.store && o.id !in m.store
    ensures SendOffer(rc, n, Ok(o), env(0)) == (n.(store := n.store[o.id := Offered(o)]), Ok(OfferDlc(o.id, o.infos)))
    ensures wc.lib.validOffer(OfferDlc(o.id, o.infos)) ==>
              OnOffer(wc, m, OfferDlc(o.id, o.infos), routerId, env(1))
                == (m.(store := m.store[o.id := Offered(Received(o, routerId))]), Ok(()))
    ensures !wc.lib.validOffer(OfferDlc(o.id, o.infos)) ==>
              OnOffer(wc, m, OfferDlc(o.id, o.infos), routerId, env(1)) == (m, Err(InvalidParameters))
  {
  }

  /** An offer moves to its contract id. */
  lemma OfferMoves(s: Store, o: OfferedContract, c: Contract)
    requires o.id !in s && MovesId(c) && GetTemporaryId(c) == o.id && GetId(c) != o.id
    ensures Update(s[o.id := Offered(o)], c, Write(true, true)) == (s[GetId(c) := c], true)
  {
    assert s[o.id := Offered(o)] - {o.id} == s;
  }

  lemma AcceptAnswers(wc: Config, m: Node, o: OfferedContract, draw: nat, env: Env)
    requires wc.lib.Sound() && Smooth(env) && o.id !in m.store
    requires wc.lib.accept(o, draw).Ok? ==> wc.lib.accept(o, draw).value.0.contractId != o.id
    ensures var (m', r) := AcceptContractOffer(wc, m.(store := m.store[o.id := Offered(o)]), o.id, draw, env);
            match wc.lib.accept(o, draw)
            case Err(e) => m' == m.(store := m.store[o.id := Offered(o)]) && r == Err(e)
            case Ok((a, accept)) =>
              && m' == m.(store := m.store[a.contractId := Accepted(a)])
              && r == Ok((a.contractId, o.counterParty, accept))
  {
    match wc.lib.accept(o, draw)
    case Err(_) =>
    case Ok((a, _)) => OfferMoves(m.store, o, Accepted(a));
  }

  lemma SignAnswers(rc: Config, n: Node, o: OfferedContract, accept: AcceptDlc, env: Env)
    requires rc.lib.Sound() && Smooth(env) && o.id !in n.store && accept.temporaryId == o.id
    requires rc.lib.verifyAccept(o, accept).Ok? ==> rc.lib.verifyAccept(o, accept).value.0.accepted.contractId != o.id
    ensures var (n', r) := OnAccept(rc, n.(store := n.store[o.id := Offered(o)]), accept, o.counterParty, env);
            match rc.lib.verifyAccept(o, accept)
            case Err(e) =>
              && n' == n.(store := n.store[o.id := FailedAccept(FailedAcceptContract(o, accept, e))])
              && r == Err(e)
            case Ok((s, sign)) => n' == n.(store := n.store[s.accepted.contractId := Signed(s)]) && r == Ok(sign)
  {
    match rc.lib.verifyAccept(o, accept)
    case Err(_) =>
    case Ok((s, _)) => OfferMoves(n.store, o, Signed(s));
  }

  lemma CountersignEnds(wc: Config, m: Node, a: AcceptedContract, sign: SignDlc, env: Env)
    requires wc.lib.Sound() && Smooth(env) && sign.contractId == a.contractId
    requires a.contractId !in m.store && a.offered.id !in m.store && a.contractId != a.offered.id
    ensures var (m', r) := OnSign(wc, m.(store := m.store[a.contractId := Accepted(a)]), sign, a.offered.counterParty,
            env);
            match wc.lib.verifySign(a, sign)
            case Err(e) =>
              && m' == m.(store := m.store[a.contractId := FailedSign(FailedSignContract(a, sign, e))])
              && r == Err(e)
            case Ok((s, _)) =>
              && r == Ok(())
              && m' == Node(m.store[a.contractId := Signed(s)], m.sent + [FundTx(a.contractId, a.fundTxid)])
  {
    match wc.lib.verifySign(a, sign)
    case Err(_) =>
    case Ok((s, _)) =>
      var held := m.store[a.contractId := Accepted(a)];
      assert held - {a.offered.id} == held;
  }

  /** When every call gets through, five messages fund the contract exactly when the libraries accept
      each other's messages. Both parties then hold it as Signed under the contract id and neither
      under the offer's id, and the wallet has broadcast the funding transaction, once. Otherwise
      nothing is broadcast, and a rejected message leaves a failed record with whoever got it. */
  lemma NegotiationFundsIff(rc: Config, wc: Config, n: Node, m: Node, o: OfferedContract, routerId: PeerId, draw: nat,
                            env: nat -> Env)
    requires rc.lib.Sound() && wc.lib.Sound() && rc.oracles.Some? && (forall i :: Smooth(env(i)))
    requires IdsAgree(rc, wc, n, m, o, routerId, draw)
    ensures var (n', m', r) := Negotiate(rc, wc, n, m, o, routerId, draw, env);
            && n'.sent == n.sent
            && (r.Err? ==> m'.sent == m.sent)
            && if !Acceptable(wc, o, routerId, draw) then
                 r.Err? && n'.store == n.store[o.id := Offered(o)]
               else
                 var (a, accept) := wc.lib.accept(Received(o, routerId), draw).value;
                 if !Signable(rc, wc, o, routerId, draw) then
                   && r.Err? && m'.store == m.store[a.contractId := Accepted(a)]
                   && o.id in n'.store && n'.store[o.id].FailedAccept? && n'.store == n.store[o.id := n'.store[o.id]]
                 else
                   && n'.store == n.store[a.contractId := Signed(rc.lib.verifyAccept(o, accept).value.0)]
                   && a.contractId in m'.store && m'.store == m.store[a.contractId := m'.store[a.contractId]]
                   && if !Countersignable(rc, wc, o, routerId, draw) then
                        r.Err? && m'.store[a.contractId].FailedSign?
                      else
                        && r.Ok? && m'.sent == m.sent + [FundTx(a.contractId, a.fundTxid)]
                        && m'.store[a.contractId].Signed? && m'.store[a.contractId].signed.accepted == a
  {
    OfferArrives(rc, wc, n, m, o, routerId, env);
    if wc.lib.validOffer(OfferDlc(o.id, o.infos)) {
      AcceptAnswers(wc, m, Received(o, routerId), draw, env(2));
      if Acceptable(wc, o, routerId, draw) {
        var (a, accept) := wc.lib.accept(Received(o, routerId), draw).value;
        SignAnswers(rc, n, o, accept, env(3));
        if Signable(rc, wc, o, routerId, draw) {
          CountersignEnds(wc, m, a, rc.lib.verifyAccept(o, accept).value.1, env(4));
        }
      }
    }
  }

  // What passes broadcast.

  /** What was broadcast for one contract, in order. */
  function OwnSent(sent: seq<Broadcast>, cid: ContractId): seq<Broadcast> {
    if sent == [] then []
    else
      var b := sent[|sent| - 1];
      OwnSent(sent[..|sent| - 1], cid) + if b.cid == cid then [b] else []
  }

  lemma {:induction false} OwnSentConcat(a: seq<Broadcast>, b: seq<Broadcast>, cid: ContractId)
    ensures OwnSent(a + b, cid) == OwnSent(a, cid) + OwnSent(b, cid)
  {
    if b == [] {
      assert a + b == a;
    } else {
      OwnSentConcat(a, b[..|b| - 1], cid);
      assert (a + b)[..|a + b| - 1] == a + b[..|b| - 1];
    }
  }

  /** What checking a contract broadcasts. */
  function Sends(cfg: Config, c: Contract, env: Env): seq<Broadcast> { Alone(cfg, c, env).0.sent }

  /** A check broadcasts what it would broadcast alone, at most one transaction, and for its own
      contract. */
  lemma CheckSendsAlone(cfg: Config, n: Node, c: Contract, env: Env)
    requires Holds(n.store, c)
    ensures CheckContract(cfg, n, c, env).0.sent == n.sent + Sends(cfg, c, env)
    ensures Sends(cfg, c, env) == [] || (c.Confirmed? && |Sends(cfg, c, env)| == 1 &&
            Sends(cfg, c, env)[0].cid == GetId(c))
  {
    CheckLocal(cfg, n, Node(map[GetId(c) := c], []), c, env);
  }

  /** What the checks of the listed contracts broadcast, in order. */
  function AllSends(cfg: Config, listed: seq<Contract>, at: ContractId -> Env): seq<Broadcast> {
    if listed == [] then [] else Sends(cfg, listed[0], at(GetId(listed[0]))) + AllSends(cfg, listed[1..], at)
  }

  lemma {:induction false} OwnOfAllSends(cfg: Config, listed: seq<Contract>, at: ContractId -> Env, cid: ContractId)
    requires Distinct(listed)
    ensures forall c :: c in listed && GetId(c) == cid ==>
            OwnSent(AllSends(cfg, listed, at), cid) == Sends(cfg, c, at(cid))
    ensures (forall c :: c in listed ==> GetId(c) != cid) ==> OwnSent(AllSends(cfg, listed, at), cid) == []
  {
    if listed != [] {
      var env := at(GetId(listed[0]));
      OwnOfAllSends(cfg, listed[1..], at, cid);
      OwnSentConcat(Sends(cfg, listed[0], env), AllSends(cfg, listed[1..], at), cid);
      OwnSentOfCheck(cfg, listed[0], env, cid);
      assert forall c :: c in listed <==> c == listed[0] || c in listed[1..];
      assert forall c :: c in listed[1..] ==> GetId(c) != GetId(listed[0]);
    }
  }

  lemma OwnSentOfCheck(cfg: Config, c: Contract, env: Env, cid: ContractId)
    ensures OwnSent(Sends(cfg, c, env), cid) == if cid == GetId(c) then Sends(cfg, c, env) else []
  {
    CheckSendsAlone(cfg, Node(map[GetId(c) := c], []), c, env);
    var b := Sends(cfg, c, env);
    if b != [] { assert b == [b[0]] && b[..0] == []; }
  }

  /** A loop that ends well is the check of its first contract and then a loop over the others. */
  lemma FirstThenRest(cfg: Config, n: Node, listed: seq<Contract>, at: ContractId -> Env)
      returns (n1: Node, first: seq<Broadcast>)
    requires listed != [] && Distinct(listed) && forall c :: c in listed ==> Holds(n.store, c)
    requires RunStage(cfg, n, listed, at).1.Ok?
    ensures n1.sent == n.sent + first && AllSends(cfg, listed, at) == first + AllSends(cfg, listed[1..], at)
    ensures Distinct(listed[1..]) && forall c :: c in listed[1..] ==> Holds(n1.store, c)
    ensures RunStage(cfg, n1, listed[1..], at).1.Ok? &&
            RunStage(cfg, n, listed, at).0 == RunStage(cfg, n1, listed[1..], at).0
  {
    var env := at(GetId(listed[0]));
    n1, first := CheckContract(cfg, n, listed[0], env).0, Sends(cfg, listed[0], env);
    CheckSendsAlone(cfg, n, listed[0], env);
    TailHeld(cfg, n, listed, env);
  }

  lemma Regroup(a: seq<Broadcast>, b: seq<Broadcast>, c: seq<Broadcast>)
    ensures a + b + c == a + (b + c)
  {
  }

  lemma {:induction false} StageSends(cfg: Config, n: Node, listed: seq<Contract>, at: ContractId -> Env)
    requires Distinct(listed) && forall c :: c in listed ==> Holds(n.store, c)
    requires RunStage(cfg, n, listed, at).1.Ok?
    ensures RunStage(cfg, n, listed, at).0.sent == n.sent + AllSends(cfg, listed, at)
    decreases |listed|
  {
    if listed != [] {
      var n1, first := FirstThenRest(cfg, n, listed, at);
      StageSends(cfg, n1, listed[1..], at);
      Regroup(n.sent, first, AllSends(cfg, listed[1..], at));
    }
  }

  /** A loop over everything in its stage broadcasts for each stored contract in that stage what its
      check would alone, and nothing for any other. */
  lemma StageSendsOnStore(cfg: Config, n: Node, stage: Stage, listed: seq<Contract>, at: ContractId -> Env,
                          id: ContractId)
    requires Filed(n.store) && Lists(n.store, stage, listed) && RunStage(cfg, n, listed, at).1.Ok?
    requires id in n.store
    ensures OwnSent(RunStage(cfg, n, listed, at).0.sent, id)
         == OwnSent(n.sent, id) + if InStage(stage, n.store[id]) then Sends(cfg, n.store[id], at(id)) else []
  {
    StageSends(cfg, n, listed, at);
    OwnSentConcat(n.sent, AllSends(cfg, listed, at), id);
    OwnOfAllSends(cfg, listed, at, id);
    var c := n.store[id];
    if InStage(stage, c) { assert c in listed && GetId(c) == id; }
  }

  /** What a pass broadcasts for a contract: what the middle loop does with the record as the first
      loop left it. */
  function PassSends(cfg: Config, c: Contract, w: PassWorld): seq<Broadcast> {
    var c1 := Through(cfg, SignedStage, c, w.check(SignedStage)(GetId(c)));
    if c1.Confirmed? then Sends(cfg, c1, w.check(ConfirmedStage)(GetId(c))) else []
  }

  lemma PassBroadcasts(cfg: Config, n: Node, l1: seq<Contract>, l2: seq<Contract>, l3: seq<Contract>, w: PassWorld,
                       id: ContractId)
    requires Filed(n.store) && PassLists(cfg, n, l1, l2, l3, w) && RunPass(cfg, n, l1, l2, l3, w).1.Ok?
    requires id in n.store
    ensures OwnSent(RunPass(cfg, n, l1, l2, l3, w).0.sent, id) == OwnSent(n.sent, id) + PassSends(cfg, n.store[id], w)
  {
    PassStores(cfg, n, l1, l2, l3, w);
    var n1 := RunStage(cfg, n, l1, w.check(SignedStage)).0;
    var n2 := RunStage(cfg, n1, l2, w.check(ConfirmedStage)).0;
    OtherStageSends(cfg, n, SignedStage, l1, w.check(SignedStage), id);
    StageSendsOnStore(cfg, n1, ConfirmedStage, l2, w.check(ConfirmedStage), id);
    OtherStageSends(cfg, n2, PreClosedStage, l3, w.check(PreClosedStage), id);
  }

  /** The loops over signed and pre-closed contracts broadcast nothing. */
  lemma OtherStageSends(cfg: Config, n: Node, stage: Stage, listed: seq<Contract>, at: ContractId -> Env,
                        id: ContractId)
    requires Filed(n.store) && Lists(n.store, stage, listed) && RunStage(cfg, n, listed, at).1.Ok?
    requires id in n.store && !stage.ConfirmedStage?
    ensures OwnSent(RunStage(cfg, n, listed, at).0.sent, id) == OwnSent(n.sent, id)
  {
    StageSendsOnStore(cfg, n, stage, listed, at, id);
    NotConfirmedSendsNothing(cfg, n.store[id], at(id));
  }

  lemma NotConfirmedSendsNothing(cfg: Config, c: Contract, env: Env)
    ensures !c.Confirmed? ==> Sends(cfg, c, env) == []
  {
    CheckSendsAlone(cfg, Node(map[GetId(c) := c], []), c, env);
  }

  // What passes achieve.

  /** The funding transaction is deep enough, and the check's own write gets through. */
  predicate Confirmable(s: SignedContract, env: Env) {
    SeenDeep(env, s.accepted.fundTxid, 6) && env.write(s.accepted.contractId).written
  }

  /** A signed contract leaves that state in a pass exactly when the first loop finds its funding six deep
      and the write gets through; the pass then treats it like a confirmed one. */
  lemma ConfirmedIff(cfg: Config, s: SignedContract, w: PassWorld)
    ensures var env := w.check(SignedStage)(s.accepted.contractId);
            && (Passed(cfg, Signed(s), w) != Signed(s) <==> Confirmable(s, env))
            && (Confirmable(s, env) ==>
                  Passed(cfg, Signed(s), w) == Passed(cfg, Confirmed(s), w) &&
                    PassSends(cfg, Signed(s), w) == PassSends(cfg, Confirmed(s), w))
  {
    var (env1, env2) := (w.check(SignedStage)(s.accepted.contractId), w.check(ConfirmedStage)(s.accepted.contractId));
    assert Checked(cfg, Signed(s), env1) == if Confirmable(s, env1) then Confirmed(s) else Signed(s);
    AdvancedIff(cfg, Confirmed(s), env2);
    AdvancedIff(cfg, Checked(cfg, Confirmed(s), env2), w.check(PreClosedStage)(s.accepted.contractId));
  }

  /** A confirmed contract from no channel gets its closing transaction broadcast in a pass exactly when
      enough attestations are served, it is known not to be on chain, and the network takes it. */
  lemma ClosingBroadcastIff(cfg: Config, s: SignedContract, cet: Txid, w: PassWorld)
    requires s.channelId.None?
    ensures var env := w.check(ConfirmedStage)(s.accepted.contractId);
            PassSends(cfg, Confirmed(s), w) == [CetTx(s.accepted.contractId, cet)]
            <==> CetOf(cfg, s, env) == Some(cet) && env.confirmations(cet) == Some(0) && env.send(cet)
  {
    var (c, env) := (Confirmed(s), w.check(ConfirmedStage)(s.accepted.contractId));
    var n := Node(map[GetId(c) := c], []);
    assert PassSends(cfg, c, w) == CheckConfirmed(cfg, n, s, env).0.sent;
    if ClosableOf(cfg, s, env).None? {
      var sends := PassSends(cfg, c, w);
      assert sends == CheckRefund(cfg, n, s, env).0.sent;
      assert sends == [] || sends[0].RefundTx?;
    } else {
      var found := ClosableOf(cfg, s, env).value;
      var r := cfg.lib.signedCet(s, found.info, found.adaptor, found.attestations);
      if r.Ok? {
        var sends := CloseContract(cfg, n, s, r.value, AttestationsOf(found.attestations), env).0.sent;
        assert PassSends(cfg, c, w) == sends;
        assert sends == [] || sends == [CetTx(GetId(c), r.value)];
        assert sends == [CetTx(GetId(c), cet)] ==> sends[0] == CetTx(GetId(c), cet);
      }
    }
  }

  /** Checking a confirmed contract that nothing closes. */
  lemma RefundChecked(cfg: Config, s: SignedContract, env: Env)
    requires s.channelId.None? && cfg.lib.Sound() && ClosableOf(cfg, s, env).None?
    ensures Checked(cfg, Confirmed(s), env) == if RefundRecordable(cfg, s, env) then Refunded(s) else Confirmed(s)
    ensures Sends(cfg, Confirmed(s), env) ==
              if RefundGoesOut(cfg, s, env)
              then [RefundTx(s.accepted.contractId, s.accepted.refundTxid, s.accepted.refundLockTime, env.now.value)]
              else []
  {
    var c := Confirmed(s);
    var n := Node(map[GetId(c) := c], []);
    assert CheckContract(cfg, n, c, env) == CheckRefund(cfg, n, s, env);
  }

  /** The lock time has come, the refund is on chain already or can be signed and broadcast, and the write
      gets through. */
  predicate RefundRecordable(cfg: Config, s: SignedContract, env: Env) {
    var depth := env.confirmations(s.accepted.refundTxid);
    && env.now.Some? && s.accepted.refundLockTime <= env.now.value
    && env.write(s.accepted.contractId).written
    && depth.Some?
    && (depth.value > 0 || (cfg.lib.signedRefund(s).Ok? && env.send(s.accepted.refundTxid)))
  }

  /** The closing transaction's depth is known, it is on chain or can be broadcast, and the write gets
      through. */
  predicate ClosingRecordable(s: SignedContract, cet: Txid, env: Env) {
    && env.confirmations(cet).Some?
    && (env.confirmations(cet) == Some(0) ==> env.send(cet))
    && env.write(s.accepted.contractId).written
  }

  /** Checking a confirmed contract that something closes. */
  lemma ClosingChecked(cfg: Config, s: SignedContract, env: Env)
    requires s.channelId.None? && ClosableOf(cfg, s, env).Some?
    ensures var (d, cet) := (Checked(cfg, Confirmed(s), env), CetOf(cfg, s, env));
            if cet.Some? && ClosingRecordable(s, cet.value, env) then d.PreClosed? || d.Closed? else d == Confirmed(s)
    ensures forall b :: b in Sends(cfg, Confirmed(s), env) ==> b.CetTx?
  {
    var (c, found) := (Confirmed(s), ClosableOf(cfg, s, env).value);
    var n := Node(map[GetId(c) := c], []);
    assert CheckContract(cfg, n, c, env) == CheckConfirmed(cfg, n, s, env);
    if CetOf(cfg, s, env).Some? {
      var r := CloseContract(cfg, n, s, CetOf(cfg, s, env).value, AttestationsOf(found.attestations), env);
      assert CheckConfirmed(cfg, n, s, env) == if r.1.Ok? then Record(r.0, r.1.value, Advanced, env) else (r.0, Failed);
    }
  }

  /** It gets its refund broadcast exactly when no contract info is closable, the lock time has come, the
      refund is known not to be on chain, and the network takes it. */
  lemma RefundBroadcastIff(cfg: Config, s: SignedContract, w: PassWorld)
    requires s.channelId.None? && cfg.lib.Sound()
    ensures var env := w.check(ConfirmedStage)(s.accepted.contractId);
            (exists b :: b in PassSends(cfg, Confirmed(s), w) && b.RefundTx?)
            <==> ClosableOf(cfg, s, env).None? && RefundGoesOut(cfg, s, env)
    ensures var env := w.check(ConfirmedStage)(s.accepted.contractId);
            forall b :: b in PassSends(cfg, Confirmed(s), w) && b.RefundTx? ==>
              PassSends(cfg, Confirmed(s), w) == [b] && env.now.Some?
              && b == RefundTx(s.accepted.contractId, s.accepted.refundTxid, s.accepted.refundLockTime, env.now.value)
  {
    var env := w.check(ConfirmedStage)(s.accepted.contractId);
    var sends := PassSends(cfg, Confirmed(s), w);
    assert sends == Sends(cfg, Confirmed(s), env);
    if ClosableOf(cfg, s, env).None? {
      RefundChecked(cfg, s, env);
      if sends != [] { assert sends[0] in sends; }
    } else {
      ClosingChecked(cfg, s, env);
    }
  }

  /** What the third loop makes of the record that the second wrote. */
  lemma ThirdLoop(cfg: Config, s: SignedContract, w: PassWorld)
    ensures var c := Checked(cfg, Confirmed(s), w.check(ConfirmedStage)(s.accepted.contractId));
            var d := Passed(cfg, Confirmed(s), w);
            if c.PreClosed? then d.PreClosed? || d.Closed? else d == c
  {
    var c := Checked(cfg, Confirmed(s), w.check(ConfirmedStage)(s.accepted.contractId));
    if c.PreClosed? { PreClosedChecked(cfg, c.preClosed, w.check(PreClosedStage)(s.accepted.contractId)); }
  }

  /** A confirmed contract is recorded as refunded by a pass exactly when no contract info is closable, the
      lock time has come, the refund is on chain already or can be signed and broadcast, and the write
      gets through. */
  lemma RefundedIff(cfg: Config, s: SignedContract, w: PassWorld)
    requires s.channelId.None? && cfg.lib.Sound()
    ensures var env := w.check(ConfirmedStage)(s.accepted.contractId);
            Passed(cfg, Confirmed(s), w) == Refunded(s)
            <==> ClosableOf(cfg, s, env).None? && RefundRecordable(cfg, s, env)
  {
    var env := w.check(ConfirmedStage)(s.accepted.contractId);
    if ClosableOf(cfg, s, env).None? { RefundChecked(cfg, s, env); } else { ClosingChecked(cfg, s, env); }
    ThirdLoop(cfg, s, w);
  }

  // What the attestations come from.

  /** The list has, in the order of the announcements, the answer of every oracle that answered for the
      first info for which enough did. */
  ghost predicate Attests(cfg: Config, s: SignedContract, env: Env, attestations: seq<Attestation>) {
    var infos := s.accepted.offered.infos;
    && cfg.oracles.Some?
    && exists k, answers ::
         && Chosen(cfg.oracles.value, env.attest, infos, k) && k < |s.accepted.adaptorInfos|
         && Collected(cfg.oracles.value, env.attest, infos[k].announcements, answers)
         && Listed(answers, attestations)
  }

  ghost predicate Listed(answers: seq<Answer>, attestations: seq<Attestation>) {
    |attestations| == |answers| && forall i :: 0 <= i < |answers| ==> attestations[i] == answers[i].1
  }

  lemma FoundAttests(cfg: Config, s: SignedContract, env: Env)
    requires ClosableOf(cfg, s, env).Some?
    ensures Attests(cfg, s, env, AttestationsOf(ClosableOf(cfg, s, env).value.attestations))
  {
    var found := ClosableOf(cfg, s, env).value;
    var k := FoundIsChosen(cfg.oracles.value, env.attest, s.accepted.offered.infos, s.accepted.adaptorInfos);
    assert Listed(found.attestations, AttestationsOf(found.attestations));
  }

  /** There is only one such list. */
  lemma AttestsUnique(cfg: Config, s: SignedContract, env: Env, a: seq<Attestation>, b: seq<Attestation>)
    requires Attests(cfg, s, env, a) && Attests(cfg, s, env, b)
    ensures a == b
  {
    var (oracles, infos) := (cfg.oracles.value, s.accepted.offered.infos);
    var k, v :| Chosen(oracles, env.attest, infos, k) && Collected(oracles, env.attest, infos[k].announcements, v) &&
      Listed(v, a);
    var l, u :| Chosen(oracles, env.attest, infos, l) && Collected(oracles, env.attest, infos[l].announcements, u) &&
      Listed(u, b);
    assert k == l;
    IncreasingUnique(v, u);
  }

  /** The closing transaction is the one the library signs for the first info for which enough oracles
      answer, with its adaptor info and exactly their answers. */
  lemma CetIsSigned(cfg: Config, s: SignedContract, env: Env, k: int, answers: seq<Answer>)
    requires cfg.oracles.Some? && Chosen(cfg.oracles.value, env.attest, s.accepted.offered.infos, k)
    requires k < |s.accepted.adaptorInfos|
    requires Collected(cfg.oracles.value, env.attest, s.accepted.offered.infos[k].announcements, answers)
    ensures var r := cfg.lib.signedCet(s, s.accepted.offered.infos[k], s.accepted.adaptorInfos[k], answers);
            CetOf(cfg, s, env) == if r.Ok? then Some(r.value) else None
    ensures ClosableOf(cfg, s, env).Some?
  {
    ChosenIsFound(cfg.oracles.value, env.attest, s.accepted.offered.infos, s.accepted.adaptorInfos, k, answers);
  }

  /** Nothing is closable exactly without oracles, or when for no paired info enough of them answer. */
  lemma NotClosableIff(cfg: Config, s: SignedContract, env: Env)
    ensures ClosableOf(cfg, s, env).None? <==>
              cfg.oracles.Some? ==>
                forall k :: 0 <= k < |s.accepted.offered.infos| && k < |s.accepted.adaptorInfos| ==>
                  |Answered(cfg.oracles.value, env.attest, s.accepted.offered.infos[k].announcements)|
                    < s.accepted.offered.infos[k].threshold
  {
    if cfg.oracles.Some? {
      NoneFoundIff(cfg.oracles.value, env.attest, s.accepted.offered.infos, s.accepted.adaptorInfos);
    }
  }

  /** The record of a contract closed with this transaction: its ids, its counterparty, what the closing
      transaction is worth to it under its own terms, and the attestations. */
  ghost predicate ClosedWith(cfg: Config, c: Contract, s: SignedContract, attestations: Option<seq<Attestation>>,
                             cet: Txid) {
    && c.Closed? && c.closed.signedCet == Some(cet) && c.closed.attestations == attestations
    && GetId(c) == s.accepted.contractId
    && GetTemporaryId(c) == s.accepted.offered.id
    && GetCounterParty(c) == s.accepted.offered.counterParty
    && c.closed.pnl == cfg.lib.pnl(s.accepted, cet)
  }

  /** A confirmed contract is recorded as closing or closed by a pass exactly when the attestations lead to a
      closing transaction whose depth is known, which is on chain or can be broadcast, and the write
      gets through. */
  lemma ClosingRecordedIff(cfg: Config, s: SignedContract, w: PassWorld)
    requires s.channelId.None? && cfg.lib.Sound()
    ensures var (d, env) := (Passed(cfg, Confirmed(s), w), w.check(ConfirmedStage)(s.accepted.contractId));
            d.PreClosed? || d.Closed?
            <==> CetOf(cfg, s, env).Some? && ClosingRecordable(s, CetOf(cfg, s, env).value, env)
  {
    var env := w.check(ConfirmedStage)(s.accepted.contractId);
    if ClosableOf(cfg, s, env).None? { RefundChecked(cfg, s, env); } else { ClosingChecked(cfg, s, env); }
    ThirdLoop(cfg, s, w);
  }

  /** The checks pass over a confirmed contract that came from a channel. */
  lemma ChannelContractsWait(cfg: Config, s: SignedContract, w: PassWorld)
    requires s.channelId.Some?
    ensures Passed(cfg, Confirmed(s), w) == Confirmed(s) && PassSends(cfg, Confirmed(s), w) == []
  {
  }

  /** What a pass makes of a confirmed contract that gets or already has its closing transaction: closed
      if the transaction is six deep, be it only when the third loop asks again, with the attestations
      that the oracles gave. */
  lemma ClosedByPass(cfg: Config, s: SignedContract, cet: Txid, w: PassWorld) returns (attestations: seq<Attestation>)
    requires var env := w.check(ConfirmedStage)(s.accepted.contractId);
             && s.channelId.None? && CetOf(cfg, s, env) == Some(cet) && env.confirmations(cet).Some?
             && env.write(s.accepted.contractId).written && (env.confirmations(cet) == Some(0) ==> env.send(cet))
    ensures Attests(cfg, s, w.check(ConfirmedStage)(s.accepted.contractId), attestations)
    ensures var (env, later) := (w.check(ConfirmedStage)(s.accepted.contractId),
            w.check(PreClosedStage)(s.accepted.contractId));
            var c := Passed(cfg, Confirmed(s), w);
            if SeenDeep(env, cet, 6) || (SeenDeep(later, cet, 6) && later.write(s.accepted.contractId).written)
            then ClosedWith(cfg, c, s, Some(attestations), cet)
            else c == PreClosed(PreClosedContract(s, Some(attestations), cet))
  {
    var (c, env) := (Confirmed(s), w.check(ConfirmedStage)(s.accepted.contractId));
    var n := Node(map[GetId(c) := c], []);
    attestations := AttestationsOf(ClosableOf(cfg, s, env).value.attestations);
    FoundAttests(cfg, s, env);
    var r := CloseContract(cfg, n, s, cet, attestations, env);
    assert CheckConfirmed(cfg, n, s, env) == Record(r.0, r.1.value, Advanced, env);
    assert Checked(cfg, c, env) == r.1.value;
    PreClosedChecked(cfg, PreClosedContract(s, Some(attestations), cet),
      w.check(PreClosedStage)(s.accepted.contractId));
  }

  lemma PreClosedChecked(cfg: Config, p: PreClosedContract, env: Env)
    ensures var c := Checked(cfg, PreClosed(p), env);
            if SeenDeep(env, p.signedCet, 6) && env.write(p.signed.accepted.contractId).written
            then ClosedWith(cfg, c, p.signed, p.attestations, p.signedCet) else c == PreClosed(p)
    ensures Sends(cfg, PreClosed(p), env) == []
  {
  }

  /** A pre-closed contract is closed by a pass exactly when its closing transaction is six deep and the
      write gets through; the pass broadcasts nothing for it. */
  lemma PreClosedByPass(cfg: Config, p: PreClosedContract, w: PassWorld)
    ensures var (c, env) := (Passed(cfg, PreClosed(p), w), w.check(PreClosedStage)(p.signed.accepted.contractId));
            if SeenDeep(env, p.signedCet, 6) && env.write(p.signed.accepted.contractId).written
            then ClosedWith(cfg, c, p.signed, p.attestations, p.signedCet) else c == PreClosed(p)
    ensures PassSends(cfg, PreClosed(p), w) == []
  {
    PreClosedChecked(cfg, p, w.check(PreClosedStage)(p.signed.accepted.contractId));
  }

  /** A signed contract whose funding the first loop finds six deep and whose closing transaction the
      second loop can broadcast, but the third does not find deep yet. */
  ghost predicate ReadyToClose(cfg: Config, s: SignedContract, cet: Txid, w: PassWorld) {
    var id := s.accepted.contractId;
    var env := w.check(ConfirmedStage)(id);
    && s.channelId.None? && Confirmable(s, w.check(SignedStage)(id))
    && CetOf(cfg, s, env) == Some(cet) && env.confirmations(cet) == Some(0) && env.send(cet) && env.write(id).written
    && !SeenDeep(w.check(PreClosedStage)(id), cet, 6)
  }

  /** From funding to closing in two passes: a signed contract whose funding is six deep and whose
      attestations are served gets its closing transaction broadcast by the first pass, exactly once,
      and is Closed by the second if by then that transaction is six deep. The second pass needs no
      attestations: what it stores are those the transaction was made from. */
  lemma ClosesInTwoPasses(cfg: Config, n: Node, id: ContractId, s: SignedContract, cet: Txid,
                          l1: seq<Contract>, l2: seq<Contract>, l3: seq<Contract>, w: PassWorld,
                          m1: seq<Contract>, m2: seq<Contract>, m3: seq<Contract>, w': PassWorld)
      returns (attestations: seq<Attestation>)
    requires Filed(n.store) && id in n.store && n.store[id] == Signed(s)
    requires PassLists(cfg, n, l1, l2, l3, w) && RunPass(cfg, n, l1, l2, l3, w).1.Ok? && ReadyToClose(cfg, s, cet, w)
    requires var n1 := RunPass(cfg, n, l1, l2, l3, w).0;
             PassLists(cfg, n1, m1, m2, m3, w') && RunPass(cfg, n1, m1, m2, m3, w').1.Ok?
    requires SeenDeep(w'.check(PreClosedStage)(id), cet, 6) && w'.check(PreClosedStage)(id).write(id).written
    ensures var n1 := RunPass(cfg, n, l1, l2, l3, w).0;
            var n2 := RunPass(cfg, n1, m1, m2, m3, w').0;
            && id in n2.store
            && Attests(cfg, s, w.check(ConfirmedStage)(id), attestations)
            && ClosedWith(cfg, n2.store[id], s, Some(attestations), cet)
            && OwnSent(n2.sent, id) == OwnSent(n.sent, id) + [CetTx(id, cet)]
  {
    var n1 := RunPass(cfg, n, l1, l2, l3, w).0;
    PassEffect(cfg, n, l1, l2, l3, w);
    PassBroadcasts(cfg, n, l1, l2, l3, w, id);
    ConfirmedIff(cfg, s, w);
    attestations := ClosedByPass(cfg, s, cet, w);
    ClosingBroadcastIff(cfg, s, cet, w);
    PassEffect(cfg, n1, m1, m2, m3, w');
    PassBroadcasts(cfg, n1, m1, m2, m3, w', id);
    PreClosedByPass(cfg, n1.store[id].preClosed, w');
  }

  /** Without attestations, a pass after the lock time broadcasts the refund, exactly once, and records
      it. */
  lemma RefundsInOnePass(cfg: Config, n: Node, id: ContractId, s: SignedContract,
                         l1: seq<Contract>, l2: seq<Contract>, l3: seq<Contract>, w: PassWorld)
    requires cfg.lib.Sound() && Filed(n.store) && id in n.store && n.store[id] == Signed(s)
    requires PassLists(cfg, n, l1, l2, l3, w) && RunPass(cfg, n, l1, l2, l3, w).1.Ok?
    requires Confirmable(s, w.check(SignedStage)(id)) && Refundable(cfg, s, w.check(ConfirmedStage)(id))
    ensures var n' := RunPass(cfg, n, l1, l2, l3, w).0;
            && id in n'.store && n'.store[id] == Refunded(s)
            && OwnSent(n'.sent, id) == OwnSent(n.sent, id)
                 + [RefundTx(id, s.accepted.refundTxid, s.accepted.refundLockTime,
                   w.check(ConfirmedStage)(id).now.value)]
  {
    PassEffect(cfg, n, l1, l2, l3, w);
    PassBroadcasts(cfg, n, l1, l2, l3, w, id);
    ConfirmedIff(cfg, s, w);
    RefundedByPass(cfg, s, w);
  }

  /** The refund of a confirmed contract goes out and is recorded. */
  predicate Refundable(cfg: Config, s: SignedContract, env: Env) {
    && s.channelId.None? && ClosableOf(cfg, s, env).None? && RefundGoesOut(cfg, s, env)
    && env.write(s.accepted.contractId).written
  }

  lemma RefundedByPass(cfg: Config, s: SignedContract, w: PassWorld)
    requires cfg.lib.Sound() && Refundable(cfg, s, w.check(ConfirmedStage)(s.accepted.contractId))
    ensures Passed(cfg, Confirmed(s), w) == Refunded(s)
    ensures PassSends(cfg, Confirmed(s), w)
         == [RefundTx(s.accepted.contractId, s.accepted.refundTxid, s.accepted.refundLockTime,
           w.check(ConfirmedStage)(s.accepted.contractId).now.value)]
  {
    var (c, env) := (Confirmed(s), w.check(ConfirmedStage)(s.accepted.contractId));
    var alone := Node(map[GetId(c) := c], []);
    assert CheckContract(cfg, alone, c, env) == CheckRefund(cfg, alone, s, env);
    RefundedIff(cfg, s, w);
    RefundBroadcastIff(cfg, s, w);
  }
}
