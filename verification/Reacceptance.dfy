/** A run without any failing call that leaves a funded contract unsigned with the wallet that funded it:
    the wallet is given the same offer once more after it has countersigned, and accepts it again. */
module Reacceptance {
  import opened Base
  import opened Contracts
  import opened ContractStore
  import opened Lifecycle
  import opened NodeRuns
  import opened TwoParty
  import opened Settlement
  import Replays

  /** The libraries accept each other's messages, and accepting the offer with the second draw computes
      the contract id of the first: the key is fixed, and so may be the inputs. */
  ghost predicate Reacceptable(cfg: Party -> Config, o: OfferedContract, routerId: PeerId, draw: nat, again: nat) {
    var (rc, wc, empty) := (cfg(Router), cfg(Wasm), Node(map[], []));
    && rc.lib.Sound() && wc.lib.Sound() && rc.oracles.Some?
    && IdsAgree(rc, wc, empty, empty, o, routerId, draw)
    && Acceptable(wc, o, routerId, draw) && Signable(rc, wc, o, routerId, draw)
    && Countersignable(rc, wc, o, routerId, draw)
    && var second := wc.lib.accept(Received(o, routerId), again);
       second.Ok? && second.value.0.contractId == wc.lib.accept(Received(o, routerId), draw).value.0.contractId
  }

  /** What the two parties make of the offer. */
  datatype Deal = Deal(a: AcceptedContract, accept: AcceptDlc, s: SignedContract, sign: SignDlc, v: SignedContract,
                       b: AcceptedContract)

  ghost function DealOf(cfg: Party -> Config, o: OfferedContract, routerId: PeerId, draw: nat, again: nat): Deal
    requires Reacceptable(cfg, o, routerId, draw, again)
  {
    var (a, accept) := cfg(Wasm).lib.accept(Received(o, routerId), draw).value;
    var (s, sign) := cfg(Router).lib.verifyAccept(o, accept).value;
    Deal(a, accept, s, sign, cfg(Wasm).lib.verifySign(a, sign).value.0,
      cfg(Wasm).lib.accept(Received(o, routerId), again).value.0)
  }

  /** Offer, receipt, acceptance, signing and countersigning, then receipt and acceptance again. */
  function ReacceptedRun(o: OfferedContract, routerId: PeerId, draw: nat, again: nat, d: Deal,
                         env: Env): seq<WorldStep> {
    [WorldStep(Router, SendsOffer(Ok(o)), env),
     WorldStep(Wasm, GetsOffer(OfferDlc(o.id, o.infos), routerId), env),
     WorldStep(Wasm, AcceptsOffer(o.id, draw), env),
     WorldStep(Router, GetsAccept(d.accept, o.counterParty), env),
     WorldStep(Wasm, GetsSign(d.sign, routerId), env),
     WorldStep(Wasm, GetsOffer(OfferDlc(o.id, o.infos), routerId), env),
     WorldStep(Wasm, AcceptsOffer(o.id, again), env)]
  }

  /** The world before, between and after those steps. */
  function ReacceptedWorlds(o: OfferedContract, routerId: PeerId, d: Deal): seq<World> {
    var (r, cid) := (Offered(Received(o, routerId)), d.a.contractId);
    var (none, funded) := (Node(map[], []), [FundTx(cid, d.a.fundTxid)]);
    var (offered, signed) := (Node(map[o.id := Offered(o)], []), Node(map[cid := Signed(d.s)], []));
    [World(none, none, {}, {}),
     World(offered, none, {}, {}),
     World(offered, Node(map[o.id := r], []), {}, {}),
     World(offered, Node(map[cid := Accepted(d.a)], []), {}, {}),
     World(signed, Node(map[cid := Accepted(d.a)], []), {d.sign}, {}),
     World(signed, Node(map[cid := Signed(d.v)], funded), {d.sign}, {}),
     World(signed, Node(map[cid := Signed(d.v), o.id := r], funded), {d.sign}, {}),
     World(signed, Node(map[cid := Accepted(d.b)], funded), {d.sign}, {})]
  }

  // Each step on its own.

  /** `st` takes the world from `w` to `w'` and may be taken in a run. */
  ghost predicate Leads(cfg: Party -> Config, w: World, st: WorldStep, w': World) {
    w' == Advance(cfg, w, st) && IdsUnclaimed(cfg(st.party), w.At(st.party), st.event) && Authentic(cfg, w, st)
  }

  lemma RouterOffers(cfg: Party -> Config, o: OfferedContract, routerId: PeerId, draw: nat, again: nat, env: Env)
    requires Reacceptable(cfg, o, routerId, draw, again) && Smooth(env)
    ensures var d := DealOf(cfg, o, routerId, draw, again);
            var (run, worlds) := (ReacceptedRun(o, routerId, draw, again, d, env), ReacceptedWorlds(o, routerId, d));
            Leads(cfg, worlds[0], run[0], worlds[1])
  {
    var none := Node(map[], []);
    OfferArrives(cfg(Router), cfg(Wasm), none, none, o, routerId, _ => env);
  }

  lemma WalletReceives(cfg: Party -> Config, o: OfferedContract, routerId: PeerId, draw: nat, again: nat, env: Env)
    requires Reacceptable(cfg, o, routerId, draw, again) && Smooth(env)
    ensures var d := DealOf(cfg, o, routerId, draw, again);
            var (run, worlds) := (ReacceptedRun(o, routerId, draw, again, d, env), ReacceptedWorlds(o, routerId, d));
            Leads(cfg, worlds[1], run[1], worlds[2]) && Leads(cfg, worlds[5], run[5], worlds[6])
  {
    var worlds := ReacceptedWorlds(o, routerId, DealOf(cfg, o, routerId, draw, again));
    var none := Node(map[], []);
    OfferArrives(cfg(Router), cfg(Wasm), none, worlds[1].wasm, o, routerId, _ => env);
    OfferArrives(cfg(Router), cfg(Wasm), none, worlds[5].wasm, o, routerId, _ => env);
    assert worlds[5].wasm.store[o.id := Offered(Received(o, routerId))] == worlds[6].wasm.store;
  }

  lemma WalletAccepts(cfg: Party -> Config, o: OfferedContract, routerId: PeerId, draw: nat, again: nat, env: Env)
    requires Reacceptable(cfg, o, routerId, draw, again) && Smooth(env)
    ensures var d := DealOf(cfg, o, routerId, draw, again);
            var (run, worlds) := (ReacceptedRun(o, routerId, draw, again, d, env), ReacceptedWorlds(o, routerId, d));
            Leads(cfg, worlds[2], run[2], worlds[3])
  {
    AcceptAnswers(cfg(Wasm), Node(map[], []), Received(o, routerId), draw, env);
  }

  lemma RouterSigns(cfg: Party -> Config, o: OfferedContract, routerId: PeerId, draw: nat, again: nat, env: Env)
    requires Reacceptable(cfg, o, routerId, draw, again) && Smooth(env)
    ensures var d := DealOf(cfg, o, routerId, draw, again);
            var (run, worlds) := (ReacceptedRun(o, routerId, draw, again, d, env), ReacceptedWorlds(o, routerId, d));
            Leads(cfg, worlds[3], run[3], worlds[4])
  {
    SignAnswers(cfg(Router), Node(map[], []), o, DealOf(cfg, o, routerId, draw, again).accept, env);
  }

  lemma WalletCountersigns(cfg: Party -> Config, o: OfferedContract, routerId: PeerId, draw: nat, again: nat, env: Env)
    requires Reacceptable(cfg, o, routerId, draw, again) && Smooth(env)
    ensures var d := DealOf(cfg, o, routerId, draw, again);
            var (run, worlds) := (ReacceptedRun(o, routerId, draw, again, d, env), ReacceptedWorlds(o, routerId, d));
            Leads(cfg, worlds[4], run[4], worlds[5])
  {
    var d := DealOf(cfg, o, routerId, draw, again);
    CountersignEnds(cfg(Wasm), Node(map[], []), d.a, d.sign, env);
  }

  /** Accepting again writes Accepted over Signed. */
  lemma WalletAcceptsAgain(cfg: Party -> Config, o: OfferedContract, routerId: PeerId, draw: nat, again: nat, env: Env)
    requires Reacceptable(cfg, o, routerId, draw, again) && Smooth(env)
    ensures var d := DealOf(cfg, o, routerId, draw, again);
            var (run, worlds) := (ReacceptedRun(o, routerId, draw, again, d, env), ReacceptedWorlds(o, routerId, d));
            Leads(cfg, worlds[6], run[6], worlds[7])
  {
    var d := DealOf(cfg, o, routerId, draw, again);
    var m := ReacceptedWorlds(o, routerId, d)[5].wasm;
    AcceptAnswers(cfg(Wasm), m, Received(o, routerId), again, env);
    assert m.store[o.id := Offered(Received(o, routerId))] == ReacceptedWorlds(o, routerId, d)[6].wasm.store;
    assert m.store[d.a.contractId := Accepted(d.b)] == map[d.a.contractId := Accepted(d.b)];
  }

  // The run.

  lemma {:induction false} LeadsIsRun(cfg: Party -> Config, steps: seq<WorldStep>, worlds: seq<World>)
    requires |worlds| == |steps| + 1 && worlds[0] == World(Node(map[], []), Node(map[], []), {}, {})
    requires forall i :: 0 <= i < |steps| ==> Leads(cfg, worlds[i], steps[i], worlds[i + 1])
    ensures WorldRun(cfg, steps) && WorldAfter(cfg, steps) == worlds[|steps|]
  {
    if steps != [] {
      var k := |steps| - 1;
      LeadsIsRun(cfg, steps[..k], worlds[..k + 1]);
      assert Leads(cfg, worlds[k], steps[k], worlds[k + 1]);
    }
  }

  lemma StepLeads(cfg: Party -> Config, o: OfferedContract, routerId: PeerId, draw: nat, again: nat, env: Env, i: nat)
    requires Reacceptable(cfg, o, routerId, draw, again) && Smooth(env) && i < 7
    ensures var d := DealOf(cfg, o, routerId, draw, again);
            var (run, worlds) := (ReacceptedRun(o, routerId, draw, again, d, env), ReacceptedWorlds(o, routerId, d));
            Leads(cfg, worlds[i], run[i], worlds[i + 1])
  {
    match i
    case 0 => RouterOffers(cfg, o, routerId, draw, again, env);
    case 1 => WalletReceives(cfg, o, routerId, draw, again, env);
    case 2 => WalletAccepts(cfg, o, routerId, draw, again, env);
    case 3 => RouterSigns(cfg, o, routerId, draw, again, env);
    case 4 => WalletCountersigns(cfg, o, routerId, draw, again, env);
    case 5 => WalletReceives(cfg, o, routerId, draw, again, env);
    case 6 => WalletAcceptsAgain(cfg, o, routerId, draw, again, env);
  }

  lemma FirstAndLastWorld(o: OfferedContract, routerId: PeerId, d: Deal)
    ensures var worlds := ReacceptedWorlds(o, routerId, d);
            && |worlds| == 8 && worlds[0] == World(Node(map[], []), Node(map[], []), {}, {})
            && worlds[7].wasm == Node(map[d.a.contractId := Accepted(d.b)], [FundTx(d.a.contractId, d.a.fundTxid)])
  {
  }

  /** In a run in which every call gets through, every id is unclaimed and every Sign message authentic,
      the wallet has broadcast the funding transaction and holds the contract as Accepted only. */
  lemma ReacceptanceUnsigns(cfg: Party -> Config, o: OfferedContract, routerId: PeerId, draw: nat, again: nat, env: Env)
    requires Reacceptable(cfg, o, routerId, draw, again) && Smooth(env)
    ensures var d := DealOf(cfg, o, routerId, draw, again);
            var run := ReacceptedRun(o, routerId, draw, again, d, env);
            var wasm := WorldAfter(cfg, run).wasm;
            && WorldRun(cfg, run)
            && FundTx(d.a.contractId, d.a.fundTxid) in wasm.sent
            && wasm.store == map[d.a.contractId := Accepted(d.b)] && !Later(wasm.store, d.a.contractId)
  {
    var d := DealOf(cfg, o, routerId, draw, again);
    var (run, worlds) := (ReacceptedRun(o, routerId, draw, again, d, env), ReacceptedWorlds(o, routerId, d));
    FirstAndLastWorld(o, routerId, d);
    forall i | 0 <= i < |run| ensures Leads(cfg, worlds[i], run[i], worlds[i + 1]) {
      StepLeads(cfg, o, routerId, draw, again, env, i);
    }
    LeadsIsRun(cfg, run, worlds);
  }

  lemma AllSmooth(o: OfferedContract, routerId: PeerId, draw: nat, again: nat, d: Deal, env: Env)
    requires Smooth(env)
    ensures forall st :: st in ReacceptedRun(o, routerId, draw, again, d, env) ==> Smooth(st.env)
  {
  }

  lemma ExampleReaccepts(cfg: Party -> Config, o: OfferedContract)
    requires forall p :: cfg(p) == Config(Replays.ExampleLib(), Some({}))
    ensures Reacceptable(cfg, o, 0, 0, 0)
  {
    Replays.ExampleIsSound();
    assert |cfg(Wasm).lib.idOf(o.id, 1)| == |o.id| + 2;
    assert cfg(Wasm).lib.accept(Received(o, 0), 0).value.0.contractId == cfg(Wasm).lib.idOf(o.id, 1);
  }

  /** Such libraries, an offer and a run exist. */
  lemma FundedButUnsigned() returns (cfg: Party -> Config, steps: seq<WorldStep>, cid: ContractId, txid: Txid)
    ensures (forall p :: cfg(p).lib.Sound()) && WorldRun(cfg, steps)
    ensures forall st :: st in steps ==> Smooth(st.env)
    ensures FundTx(cid, txid) in WorldAfter(cfg, steps).wasm.sent && !Later(WorldAfter(cfg, steps).wasm.store, cid)
  {
    var lib := Replays.ExampleLib();
    cfg := _ => Config(lib, Some({}));
    var o := OfferedContract([], 0, []);
    var env := Env(_ => None, None, (_, _) => None, _ => true, _ => Write(true, true), true, true);
    assert Smooth(env);
    Replays.ExampleIsSound();
    ExampleReaccepts(cfg, o);
    var d := DealOf(cfg, o, 0, 0, 0);
    ReacceptanceUnsigns(cfg, o, 0, 0, 0, env);
    AllSmooth(o, 0, 0, 0, d, env);
    steps, cid, txid := ReacceptedRun(o, 0, 0, 0, d, env), d.a.contractId, d.a.fundTxid;
  }
}
