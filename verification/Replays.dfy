/** A run that spends a funding output twice although every record is written: the removal of one
    temporary row fails, unnoticed, and the same Accept message arrives again. */
module Replays {
  import opened Base
  import opened Contracts
  import opened ContractStore
  import opened Closable
  import opened Lifecycle
  import opened NodeRuns

  /** Only the funding transaction ever gets into a block. */
  function FundOnly(fund: Txid): Txid -> nat { t => if t == fund then 6 else 0 }

  /** A world in which every call but, possibly, the removal of temporary rows gets through. */
  function Outside(fund: Txid, now: nat, attest: Attestor, deletes: bool): Env {
    Env(t => Some(if t == fund then 6 else 0), Some(now), attest, _ => true, _ => Write(deletes, true), true, true)
  }

  function Silent(): Attestor { (_, _) => None }

  /** The router offers and answers an accept, but the Offered row stays. The contract confirms and is
      closed, and the closing transaction waits in the mempool. The accept arrives again and sets the
      record back to Signed; it confirms again, the attestors no longer answer, and the refund goes out. */
  function ReplayedRun(s: SignedContract, m: AcceptDlc, now: nat, attest: Attestor): seq<Step> {
    var (id, fund) := (s.accepted.contractId, s.accepted.fundTxid);
    var quiet := Outside(fund, now, Silent(), true);
    [Taken(fund, SendsOffer(Ok(s.accepted.offered)), quiet),
     Taken(fund, GetsAccept(m, s.accepted.offered.counterParty), Outside(fund, now, Silent(), false)),
     Taken(fund, Checks(id), quiet),
     Taken(fund, Checks(id), Outside(fund, now, attest, true)),
     Taken(fund, GetsAccept(m, s.accepted.offered.counterParty), quiet),
     Taken(fund, Checks(id), quiet),
     Taken(fund, Checks(id), quiet)]
  }

  function Taken(fund: Txid, e: Event, env: Env): Step { Step(e, env, FundOnly(fund)) }

  /** The manager before, between and after those steps; `p` is what the closing check stores. */
  function ReplayedNodes(s: SignedContract, cet: Txid, now: nat, p: PreClosedContract): seq<Node> {
    var (o, id) := (Offered(s.accepted.offered), s.accepted.contractId);
    var (offerId, closing) := (s.accepted.offered.id, CetTx(id, cet));
    [Node(map[], []),
     Node(map[offerId := o], []),
     Node(map[offerId := o, id := Signed(s)], []),
     Node(map[offerId := o, id := Confirmed(s)], []),
     Node(map[offerId := o, id := PreClosed(p)], [closing]),
     Node(map[id := Signed(s)], [closing]),
     Node(map[id := Confirmed(s)], [closing]),
     Node(map[id := Refunded(s)], [closing, RefundTx(id, s.accepted.refundTxid, s.accepted.refundLockTime, now)])]
  }

  /** What the run needs: a router that can offer, an accept that verifies, attestations that close the
      contract, and a refund that is due. */
  ghost predicate Replayable(cfg: Config, s: SignedContract, m: AcceptDlc, cet: Txid, now: nat, attest: Attestor) {
    var a := s.accepted;
    && cfg.lib.Sound() && cfg.oracles.Some? && s.channelId.None?
    && m.temporaryId == a.offered.id != a.contractId
    && cfg.lib.verifyAccept(a.offered, m).Ok? && cfg.lib.verifyAccept(a.offered, m).value.0 == s
    && CetOf(cfg, s, Outside(a.fundTxid, now, attest, true)) == Some(cet)
    && ClosableOf(cfg, s, Outside(a.fundTxid, now, Silent(), true)).None?
    && cfg.lib.signedRefund(s).Ok? && a.refundLockTime <= now
    && cet != a.fundTxid && a.refundTxid != a.fundTxid
  }

  // Each step on its own.

  /** `st` takes the manager from `n` to `n'`, within distinct ids and offers received once. */
  ghost predicate Leads(cfg: Config, n: Node, st: Step, n': Node) {
    n' == Apply(cfg, n, st.event, st.env) && IdsUnclaimed(cfg, n, st.event) && FreshOfferId(n, st.event)
  }

  lemma OfferLeads(cfg: Config, s: SignedContract, m: AcceptDlc, cet: Txid, now: nat, attest: Attestor)
    requires Replayable(cfg, s, m, cet, now, attest)
    ensures Leads(cfg, Node(map[], []), ReplayedRun(s, m, now, attest)[0],
            Node(map[s.accepted.offered.id := Offered(s.accepted.offered)], []))
  {
  }

  /** Answering the accept signs the contract; the Offered row goes if its removal gets through. */
  lemma AnswerLeads(cfg: Config, n: Node, n': Node, s: SignedContract, m: AcceptDlc, cet: Txid, now: nat,
                    attest: Attestor, deletes: bool)
    requires Replayable(cfg, s, m, cet, now, attest) && Holds(n.store, Offered(s.accepted.offered))
    requires Unclaimed(n.store, s.accepted.contractId, m.temporaryId)
    requires n' == n.(store := (if deletes then n.store - {m.temporaryId}
             else n.store)[s.accepted.contractId := Signed(s)])
    ensures Leads(cfg, n, Taken(s.accepted.fundTxid, GetsAccept(m, s.accepted.offered.counterParty),
            Outside(s.accepted.fundTxid, now, Silent(), deletes)), n')
  {
  }

  lemma ConfirmLeads(cfg: Config, n: Node, n': Node, s: SignedContract, now: nat)
    requires Holds(n.store, Signed(s)) && n' == n.(store := n.store[s.accepted.contractId := Confirmed(s)])
    ensures Leads(cfg, n, Taken(s.accepted.fundTxid, Checks(s.accepted.contractId),
            Outside(s.accepted.fundTxid, now, Silent(), true)), n')
  {
    var env := Outside(s.accepted.fundTxid, now, Silent(), true);
    assert env.confirmations(s.accepted.fundTxid) == Some(6);
    assert CheckContract(cfg, n, Signed(s), env) == CheckSigned(n, s, env);
  }

  /** What the closing check stores. */
  function ClosingRecord(cfg: Config, s: SignedContract, cet: Txid, env: Env): PreClosedContract
    requires ClosableOf(cfg, s, env).Some?
  {
    PreClosedContract(s, Some(AttestationsOf(ClosableOf(cfg, s, env).value.attestations)), cet)
  }

  lemma ClosingLeads(cfg: Config, n: Node, s: SignedContract, m: AcceptDlc, cet: Txid, now: nat, attest: Attestor)
    requires Replayable(cfg, s, m, cet, now, attest) && Holds(n.store, Confirmed(s))
    ensures var env := Outside(s.accepted.fundTxid, now, attest, true);
            Leads(cfg, n, Taken(s.accepted.fundTxid, Checks(s.accepted.contractId), env),
              Node(n.store[s.accepted.contractId := PreClosed(ClosingRecord(cfg, s, cet, env))],
                n.sent + [CetTx(s.accepted.contractId, cet)]))
  {
    var env := Outside(s.accepted.fundTxid, now, attest, true);
    assert env.confirmations(cet) == Some(0) && env.send(cet);
    assert CheckContract(cfg, n, Confirmed(s), env) == CheckConfirmed(cfg, n, s, env);
  }

  lemma RefundLeads(cfg: Config, n: Node, s: SignedContract, m: AcceptDlc, cet: Txid, now: nat, attest: Attestor)
    requires Replayable(cfg, s, m, cet, now, attest) && Holds(n.store, Confirmed(s))
    ensures var env := Outside(s.accepted.fundTxid, now, Silent(), true);
            Leads(cfg, n, Taken(s.accepted.fundTxid, Checks(s.accepted.contractId), env),
              Node(n.store[s.accepted.contractId := Refunded(s)],
                n.sent + [RefundTx(s.accepted.contractId, s.accepted.refundTxid, s.accepted.refundLockTime, now)]))
  {
    var env := Outside(s.accepted.fundTxid, now, Silent(), true);
    assert env.confirmations(s.accepted.refundTxid) == Some(0) && env.now == Some(now) &&
      env.send(s.accepted.refundTxid);
    assert CheckContract(cfg, n, Confirmed(s), env) == CheckRefund(cfg, n, s, env);
  }

  // The run.

  /** Two records, one of them replaced, then the other removed. */
  lemma TwoRecords(a: ContractId, b: ContractId, o: Contract, x: Contract, y: Contract)
    requires a != b
    ensures map[a := o][b := x] == map[a := o, b := x] && map[a := o, b := x][b := y] == map[a := o, b := y]
    ensures (map[a := o, b := x] - {a})[b := y] == map[b := y] && map[b := x][b := y] == map[b := y]
  {
  }

  lemma FirstSteps(cfg: Config, s: SignedContract, m: AcceptDlc, cet: Txid, now: nat, attest: Attestor,
                   p: PreClosedContract)
    requires Replayable(cfg, s, m, cet, now, attest) &&
             p == ClosingRecord(cfg, s, cet, Outside(s.accepted.fundTxid, now, attest, true))
    ensures var (run, nodes) := (ReplayedRun(s, m, now, attest), ReplayedNodes(s, cet, now, p));
            && Leads(cfg, nodes[0], run[0], nodes[1]) && Leads(cfg, nodes[1], run[1], nodes[2])
            && Leads(cfg, nodes[2], run[2], nodes[3]) && Leads(cfg, nodes[3], run[3], nodes[4])
  {
    var (o, id, nodes) := (s.accepted.offered, s.accepted.contractId, ReplayedNodes(s, cet, now, p));
    OfferLeads(cfg, s, m, cet, now, attest);
    TwoRecords(o.id, id, Offered(o), Signed(s), Confirmed(s));
    AnswerLeads(cfg, nodes[1], nodes[2], s, m, cet, now, attest, false);
    ConfirmLeads(cfg, nodes[2], nodes[3], s, now);
    TwoRecords(o.id, id, Offered(o), Confirmed(s), PreClosed(p));
    ClosingLeads(cfg, nodes[3], s, m, cet, now, attest);
  }

  lemma LastSteps(cfg: Config, s: SignedContract, m: AcceptDlc, cet: Txid, now: nat, attest: Attestor,
                  p: PreClosedContract)
    requires Replayable(cfg, s, m, cet, now, attest) && p.signed == s
    ensures var (run, nodes) := (ReplayedRun(s, m, now, attest), ReplayedNodes(s, cet, now, p));
            Leads(cfg, nodes[4], run[4], nodes[5]) && Leads(cfg, nodes[5], run[5], nodes[6]) &&
              Leads(cfg, nodes[6], run[6], nodes[7])
  {
    var (o, id, nodes) := (s.accepted.offered, s.accepted.contractId, ReplayedNodes(s, cet, now, p));
    TwoRecords(o.id, id, Offered(o), PreClosed(p), Signed(s));
    AnswerLeads(cfg, nodes[4], nodes[5], s, m, cet, now, attest, true);
    TwoRecords(o.id, id, Offered(o), Signed(s), Confirmed(s));
    ConfirmLeads(cfg, nodes[5], nodes[6], s, now);
    TwoRecords(o.id, id, Offered(o), Confirmed(s), Refunded(s));
    RefundLeads(cfg, nodes[6], s, m, cet, now, attest);
  }

  ghost predicate TellsFundOnly(fund: Txid, st: Step) {
    st.depth == FundOnly(fund) && forall t :: st.env.confirmations(t) == Some(FundOnly(fund)(t))
  }

  /** Steps that lead from node to node, over a chain that has the funding transaction only, are a run. */
  lemma {:induction false} LeadsIsRun(cfg: Config, regime: Regime, steps: seq<Step>, nodes: seq<Node>, fund: Txid)
    requires |nodes| == |steps| + 1 && nodes[0] == Node(map[], []) && !regime.reliableDeletes
    requires forall i :: 0 <= i < |steps| ==> Leads(cfg, nodes[i], steps[i], nodes[i + 1])
    requires forall i :: 0 <= i < |steps| ==> TellsFundOnly(fund, steps[i])
    ensures Run(cfg, regime, steps) && After(cfg, steps).node == nodes[|steps|]
    ensures steps != [] ==> After(cfg, steps).depth == FundOnly(fund)
  {
    if steps != [] {
      var k := |steps| - 1;
      LeadsIsRun(cfg, regime, steps[..k], nodes[..k + 1], fund);
      assert Leads(cfg, nodes[k], steps[k], nodes[k + 1]) && TellsFundOnly(fund, steps[k]);
      assert ChainAgrees(After(cfg, steps[..k]).depth, steps[k]);
    }
  }

  /** Every record is written, and only the removal in the second step fails. */
  lemma OneFailure(s: SignedContract, m: AcceptDlc, now: nat, attest: Attestor)
    ensures var run := ReplayedRun(s, m, now, attest);
            && (forall i :: 0 <= i < |run| ==> TellsFundOnly(s.accepted.fundTxid, run[i]))
            && (forall i, id :: 0 <= i < |run| ==> run[i].env.write(id) == Write(i != 1, true))
  {
  }

  lemma StepLeads(cfg: Config, s: SignedContract, m: AcceptDlc, cet: Txid, now: nat, attest: Attestor,
                  p: PreClosedContract, i: nat)
    requires Replayable(cfg, s, m, cet, now, attest) &&
             p == ClosingRecord(cfg, s, cet, Outside(s.accepted.fundTxid, now, attest, true))
    requires i < 7
    ensures Leads(cfg, ReplayedNodes(s, cet, now, p)[i], ReplayedRun(s, m, now, attest)[i],
            ReplayedNodes(s, cet, now, p)[i + 1])
  {
    if i < 4 { FirstSteps(cfg, s, m, cet, now, attest, p); } else { LastSteps(cfg, s, m, cet, now, attest, p); }
  }

  lemma FirstAndLastNode(s: SignedContract, cet: Txid, now: nat, p: PreClosedContract)
    ensures var nodes := ReplayedNodes(s, cet, now, p);
            && |nodes| == 8 && nodes[0] == Node(map[], [])
            && nodes[7].sent == [CetTx(s.accepted.contractId, cet),
                RefundTx(s.accepted.contractId, s.accepted.refundTxid, s.accepted.refundLockTime, now)]
  {
  }

  /** With distinct ids, offers received once and every record written, one lost removal of a temporary
      row and one repeated message make the manager broadcast a closing transaction and the refund. */
  lemma RepeatedAcceptSpendsTwice(cfg: Config, regime: Regime, s: SignedContract, m: AcceptDlc, cet: Txid, now: nat,
                                  attest: Attestor)
    requires Replayable(cfg, s, m, cet, now, attest) && !regime.reliableDeletes
    ensures var run := ReplayedRun(s, m, now, attest);
            && Run(cfg, regime, run)
            && (forall i, id :: 0 <= i < |run| ==> run[i].env.write(id) == Write(i != 1, true))
            && Spends(After(cfg, run).node.sent, s.accepted.contractId) == 2
  {
    var run := ReplayedRun(s, m, now, attest);
    var p := ClosingRecord(cfg, s, cet, Outside(s.accepted.fundTxid, now, attest, true));
    var nodes := ReplayedNodes(s, cet, now, p);
    FirstAndLastNode(s, cet, now, p);
    forall i | 0 <= i < |run|
      ensures Leads(cfg, nodes[i], run[i], nodes[i + 1])
    {
      StepLeads(cfg, s, m, cet, now, attest, p, i);
    }
    OneFailure(s, m, now, attest);
    LeadsIsRun(cfg, regime, run, nodes, s.accepted.fundTxid);
    TwoSpends(nodes[|run|].sent, s.accepted.contractId, cet,
      RefundTx(s.accepted.contractId, s.accepted.refundTxid, s.accepted.refundLockTime, now));
  }

  lemma TwoSpends(sent: seq<Broadcast>, id: ContractId, cet: Txid, refund: Broadcast)
    requires refund.RefundTx? && refund.cid == id && sent == [CetTx(id, cet), refund]
    ensures Spends(sent, id) == 2
  {
    SpendsAppend([], CetTx(id, cet), id);
    SpendsAppend([CetTx(id, cet)], refund, id);
    assert [] + [CetTx(id, cet)] == [CetTx(id, cet)] && [CetTx(id, cet)] + [refund] == sent;
  }

  // Such a library, contract and message exist.

  function ExampleLib(): Dlc {
    var idOf := (id: ContractId, fund: Txid) => id + seq(fund + 1, (_: nat) => 0 as Byte);
    var accepted := (o: OfferedContract) => AcceptedContract(o, idOf(o.id, 1), [AdaptorInfo(0)], 1, 2, 0);
    Dlc(_ => true,
        (o, _) => Ok((accepted(o), AcceptDlc(o.id, []))),
        (o, _) => Ok((SignedContract(accepted(o), None), SignDlc(idOf(o.id, 1), []))),
        (a: AcceptedContract, _) => Ok((SignedContract(a, None), a.fundTxid)),
        (_, _, _, _) => Ok(3),
        (s: SignedContract) => Ok(s.accepted.refundTxid),
        (_, _) => 0,
        idOf)
  }

  lemma ExampleIsSound()
    ensures ExampleLib().Sound()
  {
    var lib := ExampleLib();
    forall id: ContractId, x: Txid, y: Txid | lib.idOf(id, x) == lib.idOf(id, y) ensures x == y {
      assert |lib.idOf(id, x)| == |id| + x + 1 && |lib.idOf(id, y)| == |id| + y + 1;
    }
  }

  /** A contract whose only oracle attests, and then falls silent. */
  lemma ExampleCloses(cfg: Config, s: SignedContract, attest: Attestor, env: Env)
    requires cfg == Config(ExampleLib(), Some({7})) && env.attest == attest
    requires s.accepted.offered.infos == [ContractInfo([Announcement(7, "event")], 1)] &&
             s.accepted.adaptorInfos == [AdaptorInfo(0)]
    ensures attest(7, "event").Some? ==> CetOf(cfg, s, env) == Some(3)
    ensures attest(7, "event").None? ==> ClosableOf(cfg, s, env).None?
  {
    var adaptors := s.accepted.adaptorInfos;
    var infos := s.accepted.offered.infos;
    assert infos[1..] == [] && infos[0].announcements == [Announcement(7, "event")];
    AnswersOfOne(attest, Announcement(7, "event"));
    assert FirstClosable({7}, attest, infos[1..], adaptors[1..]).None?;
    assert Qualifies({7}, attest, infos[0]) <==> attest(7, "event").Some?;
    var closable := ClosableOf(cfg, s, env);
    if attest(7, "event").Some? {
      assert closable.Some?;
      var r := ExampleLib().signedCet(s, closable.value.info, closable.value.adaptor, closable.value.attestations);
      assert r.Ok? && r.value == 3;
      assert CetOf(cfg, s, env) == Some(r.value);
    }
  }

  /** The run exists. */
  lemma TwoSpendsHappen() returns (cfg: Config, steps: seq<Step>, cid: ContractId)
    ensures cfg.lib.Sound() && Run(cfg, Regime(true, true, false), steps)
    ensures forall i, id :: 0 <= i < |steps| ==> steps[i].env.write(id) == Write(i != 1, true)
    ensures Spends(After(cfg, steps).node.sent, cid) == 2
  {
    cfg := Config(ExampleLib(), Some({7}));
    var o := OfferedContract([], 0, [ContractInfo([Announcement(7, "event")], 1)]);
    var m := AcceptDlc([], []);
    var s := cfg.lib.verifyAccept(o, m).value.0;
    var attest: Attestor := (_, _) => Some(Attestation(7, ["1"]));
    ExampleIsSound();
    ExampleCloses(cfg, s, attest, Outside(1, 0, attest, true));
    ExampleCloses(cfg, s, Silent(), Outside(1, 0, Silent(), true));
    RepeatedAcceptSpendsTwice(cfg, Regime(true, true, false), s, m, 3, 0, attest);
    steps, cid := ReplayedRun(s, m, 0, attest), s.accepted.contractId;
  }

  lemma AnswersOfOne(attest: Attestor, a: Announcement)
    ensures var answer := attest(a.oracle, a.eventId);
            Closable.Answers({a.oracle}, attest, [a]) == if answer.Some? then [(0, answer.value)] else []
  {
    assert [a][..0] == [];
  }
}
