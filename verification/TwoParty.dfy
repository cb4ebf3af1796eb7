/** Two managers that share nothing but messages. Every step of either may come at any time with any
    message, so messages may be lost, repeated, reordered or forged; only Sign messages are
    authenticated, and any call of the store, the chain or the network may fail. In particular an Accept
    message may be answered again when the removal of the offer's row failed. */
module TwoParty {
  import opened Base
  import opened Contracts
  import opened ContractStore
  import opened Lifecycle
  import opened NodeRuns

  datatype Party = Router | Wasm

  function Other(p: Party): Party { if p == Router then Wasm else Router }

  /** Each party's manager, and the Sign messages that it has produced. */
  datatype World = World(router: Node, wasm: Node, routerSigns: set<SignDlc>, wasmSigns: set<SignDlc>)
  {
    function At(p: Party): Node { if p == Router then router else wasm }
    function Signs(p: Party): set<SignDlc> { if p == Router then routerSigns else wasmSigns }
  }

  datatype WorldStep = WorldStep(party: Party, event: Event, env: Env)

  /** The reply of a step, when it is a Sign message. */
  function SignReply(cfg: Config, n: Node, e: Event, env: Env): set<SignDlc> {
    if e.GetsAccept? && OnAccept(cfg, n, e.accept, e.peer, env).1.Ok?
      then {OnAccept(cfg, n, e.accept, e.peer, env).1.value} else {}
  }

  function Advance(cfg: Party -> Config, w: World, st: WorldStep): World {
    var n := w.At(st.party);
    var n' := Apply(cfg(st.party), n, st.event, st.env);
    var signs := w.Signs(st.party) + SignReply(cfg(st.party), n, st.event, st.env);
    match st.party
    case Router => World(n', w.wasm, signs, w.wasmSigns)
    case Wasm => World(w.router, n', w.routerSigns, signs)
  }

  /** The event is a Sign message that verifies against the accepted contract it names. */
  predicate Verifies(cfg: Config, n: Node, e: Event) {
    && e.GetsSign? && e.sign.contractId in n.store && n.store[e.sign.contractId].Accepted?
    && cfg.lib.verifySign(n.store[e.sign.contractId].accept, e.sign).Ok?
  }

  /** A Sign message that verifies was produced by the other party. */
  ghost predicate Authentic(cfg: Party -> Config, w: World, st: WorldStep) {
    Verifies(cfg(st.party), w.At(st.party), st.event) ==> st.event.sign in w.Signs(Other(st.party))
  }

  /** The contract is held in Signed or a later state. */
  ghost predicate Later(s: Store, cid: ContractId) { cid in s && SignedOrLater(s[cid]) }

  /** Accepting an offer again computes the id of a contract that is already signed, and so sets it back. */
  ghost predicate Unsigns(cfg: Config, n: Node, e: Event, cid: ContractId) {
    e.AcceptsOffer? && Recomputes(cfg, n, e, cid) && Later(n.store, cid)
  }

  ghost function WorldAfter(cfg: Party -> Config, steps: seq<WorldStep>): World {
    if steps == [] then World(Node(map[], []), Node(map[], []), {}, {})
    else Advance(cfg, WorldAfter(cfg, steps[..|steps| - 1]), steps[|steps| - 1])
  }

  ghost predicate WorldRun(cfg: Party -> Config, steps: seq<WorldStep>) {
    steps == [] ||
    var before, last := steps[..|steps| - 1], steps[|steps| - 1];
    && WorldRun(cfg, before)
    && IdsUnclaimed(cfg(last.party), WorldAfter(cfg, before).At(last.party), last.event)
    && Authentic(cfg, WorldAfter(cfg, before), last)
  }

  /** Neither party ever accepts away this contract once it is signed. */
  ghost predicate NeverUnsigned(cfg: Party -> Config, steps: seq<WorldStep>, cid: ContractId) {
    steps == [] ||
    var before, last := steps[..|steps| - 1], steps[|steps| - 1];
    && NeverUnsigned(cfg, before, cid)
    && !Unsigns(cfg(last.party), WorldAfter(cfg, before).At(last.party), last.event, cid)
  }

  /** Both parties hold the contract, and its id is the one computed from this funding transaction. */
  ghost predicate BackedFunding(lib: Dlc, n: Node, other: Node, b: Broadcast)
    requires b.FundTx?
  {
    && Later(n.store, b.cid) && Later(other.store, b.cid)
    && lib.idOf(GetTemporaryId(n.store[b.cid]), b.txid) == b.cid
  }

  /** A party holds this contract if it signed or funded it, and so does its counterparty if it funded it. */
  ghost predicate Backed(lib: Dlc, n: Node, signs: set<SignDlc>, other: Node, cid: ContractId) {
    && Coherent(lib, n.store)
    && (forall m :: m in signs && m.contractId == cid ==> Later(n.store, cid))
    && (forall b :: b in n.sent && b.FundTx? && b.cid == cid ==> BackedFunding(lib, n, other, b))
  }

  ghost predicate Consistent(cfg: Party -> Config, w: World, cid: ContractId) {
    && Backed(cfg(Router).lib, w.router, w.routerSigns, w.wasm, cid)
    && Backed(cfg(Wasm).lib, w.wasm, w.wasmSigns, w.router, cid)
  }

  lemma LaterKept(cfg: Config, n: Node, e: Event, env: Env, cid: ContractId)
    requires cfg.lib.Sound() && Filed(n.store) && Apart(n.store) && IdsUnclaimed(cfg, n, e)
    requires Later(n.store, cid) && !Unsigns(cfg, n, e, cid)
    ensures Later(Apply(cfg, n, e, env).store, cid)
    ensures GetTemporaryId(Apply(cfg, n, e, env).store[cid]) == GetTemporaryId(n.store[cid])
  {
    var shape := StepShape(cfg, n, e, env);
    ContractRowsMove(n.store, Apply(cfg, n, e, env).store, shape, cid);
  }

  /** Where that is needed: an acceptance that is answered keeps a signed contract exactly when it does
      not compute its id. */
  lemma AcceptKeepsSignedIff(cfg: Config, n: Node, id: ContractId, draw: nat, env: Env, cid: ContractId)
    requires cfg.lib.Sound() && Filed(n.store) && Apart(n.store) && IdsUnclaimed(cfg, n, AcceptsOffer(id, draw))
    requires AcceptContractOffer(cfg, n, id, draw, env).1.Ok? && Later(n.store, cid)
    ensures Later(AcceptContractOffer(cfg, n, id, draw, env).0.store, cid)
            <==> !Unsigns(cfg, n, AcceptsOffer(id, draw), cid)
  {
    var a := cfg.lib.accept(n.store[id].offer, draw).value.0;
    var s' := AcceptContractOffer(cfg, n, id, draw, env).0.store;
    assert s'[a.contractId] == Accepted(a) && !Later(s', a.contractId);
    if !Unsigns(cfg, n, AcceptsOffer(id, draw), cid) { LaterKept(cfg, n, AcceptsOffer(id, draw), env, cid); }
  }

  /** While each offer has one record, no acceptance does. */
  lemma OneRecordKeepsSigned(cfg: Config, n: Node, e: Event, cid: ContractId)
    requires Filed(n.store) && OnePerOffer(n.store) && IdsUnclaimed(cfg, n, e)
    ensures !Unsigns(cfg, n, e, cid)
  {
  }

  /** A Sign message leaves a party only with the signed contract in its store. */
  lemma RepliesAreStored(cfg: Config, n: Node, e: Event, env: Env, m: SignDlc)
    requires cfg.lib.Sound() && m in SignReply(cfg, n, e, env)
    ensures Later(Apply(cfg, n, e, env).store, m.contractId)
  {
  }

  /** A funding transaction is broadcast only for a verified Sign message, after storing Signed. */
  lemma FundingRecorded(cfg: Config, n: Node, e: Event, env: Env, b: Broadcast)
    requires cfg.lib.Sound() && Coherent(cfg.lib, n.store)
    requires b.FundTx? && b in Apply(cfg, n, e, env).sent && b !in n.sent
    ensures Verifies(cfg, n, e) && e.sign.contractId == b.cid
    ensures Later(Apply(cfg, n, e, env).store, b.cid) && FundTxid(Apply(cfg, n, e, env).store[b.cid]) == Some(b.txid)
    ensures cfg.lib.idOf(GetTemporaryId(Apply(cfg, n, e, env).store[b.cid]), b.txid) == b.cid
  {
    var sent := StepSends(cfg, n, e, env);
    assert b == sent[0] && Keyed(cfg.lib, n.store[b.cid]);
    var shape := StepShape(cfg, n, e, env);
    ChangedRow(n.store, Apply(cfg, n, e, env).store, shape, b.cid);
  }

  /** The party that takes a step stays backed; `other` is its counterparty. */
  lemma ActorBacked(cfg: Config, n: Node, signs: set<SignDlc>, other: Node, otherSigns: set<SignDlc>,
                    e: Event, env: Env, cid: ContractId)
    requires cfg.lib.Sound() && IdsUnclaimed(cfg, n, e) && !Unsigns(cfg, n, e, cid)
    requires Backed(cfg.lib, n, signs, other, cid)
    requires forall m :: m in otherSigns && m.contractId == cid ==> Later(other.store, cid)
    requires Verifies(cfg, n, e) ==> e.sign in otherSigns
    ensures Backed(cfg.lib, Apply(cfg, n, e, env), signs + SignReply(cfg, n, e, env), other, cid)
  {
    CoherentKept(cfg, n, e, env);
    forall m | m in signs + SignReply(cfg, n, e, env) && m.contractId == cid
      ensures Later(Apply(cfg, n, e, env).store, cid)
    {
      if m in signs { LaterKept(cfg, n, e, env, cid); } else { RepliesAreStored(cfg, n, e, env, m); }
    }
    forall b | b in Apply(cfg, n, e, env).sent && b.FundTx? && b.cid == cid
      ensures BackedFunding(cfg.lib, Apply(cfg, n, e, env), other, b)
    {
      BroadcastBacked(cfg, n, signs, other, otherSigns, e, env, b);
    }
  }

  lemma BroadcastBacked(cfg: Config, n: Node, signs: set<SignDlc>, other: Node, otherSigns: set<SignDlc>,
                        e: Event, env: Env, b: Broadcast)
    requires b.FundTx? && b in Apply(cfg, n, e, env).sent
    requires cfg.lib.Sound() && IdsUnclaimed(cfg, n, e) && !Unsigns(cfg, n, e, b.cid)
    requires Backed(cfg.lib, n, signs, other, b.cid)
    requires forall m :: m in otherSigns && m.contractId == b.cid ==> Later(other.store, b.cid)
    requires Verifies(cfg, n, e) ==> e.sign in otherSigns
    ensures BackedFunding(cfg.lib, Apply(cfg, n, e, env), other, b)
  {
    if b in n.sent {
      assert BackedFunding(cfg.lib, n, other, b);
      LaterKept(cfg, n, e, env, b.cid);
    } else {
      FundingRecorded(cfg, n, e, env, b);
    }
  }

  /** The other party stays backed, since what the actor held signed it still holds. */
  lemma ObserverBacked(cfg: Config, lib: Dlc, n: Node, signs: set<SignDlc>, actor: Node, e: Event, env: Env,
                       cid: ContractId)
    requires cfg.lib.Sound() && IdsUnclaimed(cfg, actor, e) && !Unsigns(cfg, actor, e, cid)
    requires Filed(actor.store) && Apart(actor.store) && Backed(lib, n, signs, actor, cid)
    ensures Backed(lib, n, signs, Apply(cfg, actor, e, env), cid)
  {
    forall b | b in n.sent && b.FundTx? && b.cid == cid ensures BackedFunding(lib, n, Apply(cfg, actor, e, env), b) {
      assert BackedFunding(lib, n, actor, b);
      LaterKept(cfg, actor, e, env, cid);
    }
  }

  lemma {:induction false} RunsAreConsistent(cfg: Party -> Config, steps: seq<WorldStep>, cid: ContractId)
    requires (forall p :: cfg(p).lib.Sound()) && WorldRun(cfg, steps) && NeverUnsigned(cfg, steps, cid)
    ensures Consistent(cfg, WorldAfter(cfg, steps), cid)
  {
    if steps != [] {
      var before, last := steps[..|steps| - 1], steps[|steps| - 1];
      RunsAreConsistent(cfg, before, cid);
      var w, p := WorldAfter(cfg, before), last.party;
      var q := Other(p);
      ActorBacked(cfg(p), w.At(p), w.Signs(p), w.At(q), w.Signs(q), last.event, last.env, cid);
      ObserverBacked(cfg(p), cfg(q).lib, w.At(q), w.Signs(q), w.At(p), last.event, last.env, cid);
    }
  }

  /** In every run in which the contract, once signed, is not accepted away, a funding transaction
      broadcast for it by either party means that both already hold it in Signed or a later state, and
      the transaction is the one in the broadcaster's record. */
  lemma FundedOnlyWhenBothSigned(cfg: Party -> Config, steps: seq<WorldStep>, p: Party, cid: ContractId, txid: Txid)
    requires (forall q :: cfg(q).lib.Sound()) && WorldRun(cfg, steps) && NeverUnsigned(cfg, steps, cid)
    requires FundTx(cid, txid) in WorldAfter(cfg, steps).At(p).sent
    ensures var w := WorldAfter(cfg, steps);
            && Later(w.router.store, cid) && Later(w.wasm.store, cid)
            && Names(w.At(p).store[cid], txid)
  {
    RunsAreConsistent(cfg, steps, cid);
    var w := WorldAfter(cfg, steps);
    BackedIsBoth(cfg(p).lib, w.At(p), w.Signs(p), w.At(Other(p)), cid, txid);
  }

  /** The record has this funding transaction, or is closed and no longer says. */
  predicate Names(c: Contract, txid: Txid) { c.Closed? || FundTxid(c) == Some(txid) }

  lemma BackedIsBoth(lib: Dlc, n: Node, signs: set<SignDlc>, other: Node, cid: ContractId, txid: Txid)
    requires lib.Sound() && Backed(lib, n, signs, other, cid) && FundTx(cid, txid) in n.sent
    ensures Later(n.store, cid) && Later(other.store, cid) && Names(n.store[cid], txid)
    ensures lib.idOf(GetTemporaryId(n.store[cid]), txid) == cid
  {
    assert BackedFunding(lib, n, other, FundTx(cid, txid));
    assert Keyed(lib, n.store[cid]);
  }

  /** When both libraries compute ids alike and the two records come from the same offer, the
      counterparty's record names the broadcast funding transaction as well. */
  lemma SameFunding(cfg: Party -> Config, steps: seq<WorldStep>, p: Party, cid: ContractId, txid: Txid)
    requires (forall q :: cfg(q).lib.Sound()) && WorldRun(cfg, steps) && NeverUnsigned(cfg, steps, cid)
    requires forall id, tx :: cfg(Router).lib.idOf(id, tx) == cfg(Wasm).lib.idOf(id, tx)
    requires var w := WorldAfter(cfg, steps);
             && FundTx(cid, txid) in w.At(p).sent
             && (cid in w.router.store && cid in w.wasm.store ==>
                   GetTemporaryId(w.router.store[cid]) == GetTemporaryId(w.wasm.store[cid]))
    ensures var s := WorldAfter(cfg, steps).At(Other(p)).store; Later(s, cid) && Names(s[cid], txid)
  {
    RunsAreConsistent(cfg, steps, cid);
    var w, q := WorldAfter(cfg, steps), Other(p);
    BackedIsBoth(cfg(p).lib, w.At(p), w.Signs(p), w.At(q), cid, txid);
    SameKey(cfg(q).lib, w.At(q).store, cid, txid);
  }

  lemma SameKey(lib: Dlc, s: Store, cid: ContractId, txid: Txid)
    requires lib.Sound() && Coherent(lib, s) && Later(s, cid) && lib.idOf(GetTemporaryId(s[cid]), txid) == cid
    ensures Names(s[cid], txid)
  {
    assert Keyed(lib, s[cid]);
  }

  // Offers received once, temporary rows removed.

  ghost predicate OrderlyStep(cfg: Config, n: Node, st: WorldStep) {
    IdsUnclaimed(cfg, n, st.event) && FreshOfferId(n, st.event) && forall id :: st.env.write(id).deleted
  }

  ghost predicate OrderlyRun(cfg: Party -> Config, steps: seq<WorldStep>) {
    steps == [] ||
    var before, last := steps[..|steps| - 1], steps[|steps| - 1];
    && OrderlyRun(cfg, before)
    && OrderlyStep(cfg(last.party), WorldAfter(cfg, before).At(last.party), last)
    && Authentic(cfg, WorldAfter(cfg, before), last)
  }

  ghost predicate OneRecordEach(cfg: Config, n: Node) { Coherent(cfg.lib, n.store) && OnePerOffer(n.store) }

  lemma OrderlyStepKeepsOne(cfg: Config, n: Node, st: WorldStep)
    requires cfg.lib.Sound() && OneRecordEach(cfg, n) && OrderlyStep(cfg, n, st)
    ensures OneRecordEach(cfg, Apply(cfg, n, st.event, st.env))
  {
    CoherentKept(cfg, n, st.event, st.env);
    var shape := StepShape(cfg, n, st.event, st.env);
    LifecycleStep(n.store, Apply(cfg, n, st.event, st.env).store, shape);
  }

  /** In such a run each party holds one record per offer, and no signed contract is accepted away. */
  lemma {:induction false} OrderlyNeverUnsigns(cfg: Party -> Config, steps: seq<WorldStep>, cid: ContractId)
    requires (forall p :: cfg(p).lib.Sound()) && OrderlyRun(cfg, steps)
    ensures WorldRun(cfg, steps) && NeverUnsigned(cfg, steps, cid)
    ensures forall p :: OneRecordEach(cfg(p), WorldAfter(cfg, steps).At(p))
  {
    if steps != [] {
      var before, last := steps[..|steps| - 1], steps[|steps| - 1];
      OrderlyNeverUnsigns(cfg, before, cid);
      var w, p := WorldAfter(cfg, before), last.party;
      assert OneRecordEach(cfg(p), w.At(p)) && OneRecordEach(cfg(Other(p)), w.At(Other(p)));
      OneRecordKeepsSigned(cfg(p), w.At(p), last.event, cid);
      OrderlyStepKeepsOne(cfg(p), w.At(p), last);
    }
  }

  /** So in every run with offers received once and temporary rows removed, a broadcast funding
      transaction means that both parties hold the contract in Signed or a later state. */
  lemma OrderlyFundedOnlyWhenBothSigned(cfg: Party -> Config, steps: seq<WorldStep>, p: Party, cid: ContractId,
                                        txid: Txid)
    requires (forall q :: cfg(q).lib.Sound()) && OrderlyRun(cfg, steps)
    requires FundTx(cid, txid) in WorldAfter(cfg, steps).At(p).sent
    ensures var w := WorldAfter(cfg, steps);
            && Later(w.router.store, cid) && Later(w.wasm.store, cid)
            && Names(w.At(p).store[cid], txid)
  {
    OrderlyNeverUnsigns(cfg, steps, cid);
    FundedOnlyWhenBothSigned(cfg, steps, p, cid, txid);
  }
}
