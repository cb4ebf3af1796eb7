/** Whole runs of one manager: any sequence of its steps, each in any outside world. */
module NodeRuns {
  import opened Base
  import opened Contracts
  import opened ContractStore
  import opened Lifecycle

  datatype Event =
    | SendsOffer(built: Result<OfferedContract>)
    | GetsOffer(offer: OfferDlc, peer: PeerId)
    | AcceptsOffer(id: ContractId, draw: nat)
    | RejectsOffer(id: ContractId)
    | GetsAccept(accept: AcceptDlc, peer: PeerId)
    | GetsSign(sign: SignDlc, peer: PeerId)
    | Checks(id: ContractId)

  /** The manager's state after one event. */
  function Apply(cfg: Config, n: Node, e: Event, env: Env): Node {
    match e
    case SendsOffer(built) => SendOffer(cfg, n, built, env).0
    case GetsOffer(m, peer) => OnOffer(cfg, n, m, peer, env).0
    case AcceptsOffer(id, draw) => AcceptContractOffer(cfg, n, id, draw, env).0
    case RejectsOffer(id) => RejectOffer(n, id, env).0
    case GetsAccept(m, peer) => OnAccept(cfg, n, m, peer, env).0
    case GetsSign(m, peer) => OnSign(cfg, n, m, peer, env).0
    case Checks(id) => if id in n.store then CheckContract(cfg, n, n.store[id], env).0 else n
  }

  // What is assumed of identifiers.

  /** A contract id that no other offer uses: it is unused, or held by a contract from this same offer,
      and it is not the id of any offer. */
  ghost predicate Unclaimed(s: Store, id: ContractId, offerId: ContractId) {
    && (id in s ==> HasContractId(s[id]) && GetTemporaryId(s[id]) == offerId)
    && forall k :: k in s ==> GetTemporaryId(s[k]) != id
  }

  /** The contract ids computed for different offers do not collide. Accepting or answering an accept
      again may well compute the same id again. */
  ghost predicate IdsUnclaimed(cfg: Config, n: Node, e: Event) {
    match e
    case AcceptsOffer(id, draw) =>
      id in n.store && n.store[id].Offered? && cfg.lib.accept(n.store[id].offer, draw).Ok? ==>
        Unclaimed(n.store, cfg.lib.accept(n.store[id].offer, draw).value.0.contractId, id)
    case GetsAccept(m, _) =>
      m.temporaryId in n.store && n.store[m.temporaryId].Offered? &&
        cfg.lib.verifyAccept(n.store[m.temporaryId].offer, m).Ok? ==>
        Unclaimed(n.store, cfg.lib.verifyAccept(n.store[m.temporaryId].offer, m).value.0.accepted.contractId,
          m.temporaryId)
    case _ => true
  }

  /** Accepting, or answering an accept, for an Offered record computes this contract id. */
  predicate Recomputes(cfg: Config, n: Node, e: Event, cid: ContractId) {
    match e
    case AcceptsOffer(id, draw) =>
      && id in n.store && n.store[id].Offered? && cfg.lib.accept(n.store[id].offer, draw).Ok?
      && cfg.lib.accept(n.store[id].offer, draw).value.0.contractId == cid
    case GetsAccept(m, peer) =>
      var id := m.temporaryId;
      && id in n.store && n.store[id].Offered? && n.store[id].offer.counterParty == peer
      && cfg.lib.verifyAccept(n.store[id].offer, m).Ok?
      && cfg.lib.verifyAccept(n.store[id].offer, m).value.0.accepted.contractId == cid
    case _ => false
  }

  /** No stored record came from an offer with this temporary id. */
  ghost predicate FreshOffer(s: Store, id: ContractId) {
    forall k :: k in s ==> GetTemporaryId(s[k]) != id
  }

  ghost predicate FreshOfferId(n: Node, e: Event) {
    match e
    case SendsOffer(Ok(o)) => FreshOffer(n.store, o.id)
    case GetsOffer(m, _) => FreshOffer(n.store, m.temporaryId)
    case _ => true
  }

  /** Every call of the step gets through. */
  ghost predicate Smooth(env: Env) {
    env.read && env.imported && (forall id :: env.write(id) == Write(true, true)) && forall t :: env.send(t)
  }

  // The shape of a step.

  datatype Shape = Still | Opens(offer: OfferedContract) | Writes(before: Contract, next: Contract, write: Write)

  /** The store after a step: unchanged, with one more offer, or with one record moved along an edge
      of the lifecycle, keeping its terms and, from Accepted on, its id. */
  ghost predicate HasShape(s: Store, s': Store, shape: Shape) {
    match shape
    case Still => s' == s
    case Opens(o) => o.id !in s && s' == s[o.id := Offered(o)]
    case Writes(before, next, w) =>
      && GetId(before) in s && s[GetId(before)] == before && Edge(before, next)
      && TermsKept(before, next)
      && (HasContractId(before) || !HasContractId(next) ==> GetId(next) == GetId(before))
      && s' == Update(s, next, w).0
  }

  function WritesOf(before: Contract, next: Contract, env: Env): Shape { Writes(before, next, env.write(GetId(next))) }

  /** The states that only messages and the user reach. */
  predicate Early(c: Contract) { !c.Confirmed? && !Settled(c) }

  lemma AcceptsShape(cfg: Config, n: Node, id: ContractId, draw: nat, env: Env) returns (shape: Shape)
    requires cfg.lib.Sound() && Filed(n.store)
    ensures HasShape(n.store, AcceptContractOffer(cfg, n, id, draw, env).0.store, shape)
    ensures shape.Still? || (shape.Writes? && shape.write == env.write(GetId(shape.next)) && Early(shape.next))
    ensures shape.Writes? ==> shape.before.Offered? && shape.next.Accepted? && Keyed(cfg.lib, shape.next)
    ensures shape.Writes? ==> Recomputes(cfg, n, AcceptsOffer(id, draw), GetId(shape.next))
    ensures IdsUnclaimed(cfg, n, AcceptsOffer(id, draw)) ==> UnclaimedWrite(n.store, shape)
  {
    shape := Still;
    var c := Fetch(n, id, None, env);
    if c.Ok? && c.value.Offered? && env.imported {
      match cfg.lib.accept(c.value.offer, draw)
      case Err(_) =>
      case Ok((a, _)) => shape := WritesOf(c.value, Accepted(a), env);
    }
  }

  lemma GetsAcceptShape(cfg: Config, n: Node, m: AcceptDlc, peer: PeerId, env: Env) returns (shape: Shape)
    requires cfg.lib.Sound() && Filed(n.store)
    ensures HasShape(n.store, OnAccept(cfg, n, m, peer, env).0.store, shape)
    ensures shape.Still? || (shape.Writes? && shape.write == env.write(GetId(shape.next)) && Early(shape.next))
    ensures shape.Writes? ==> !shape.next.Accepted? && Keyed(cfg.lib, shape.next)
    ensures shape.Writes? && HasContractId(shape.next) ==> Recomputes(cfg, n, GetsAccept(m, peer), GetId(shape.next))
    ensures IdsUnclaimed(cfg, n, GetsAccept(m, peer)) ==> UnclaimedWrite(n.store, shape)
  {
    shape := Still;
    var c := Fetch(n, m.temporaryId, Some(peer), env);
    if c.Ok? && c.value.Offered? {
      match cfg.lib.verifyAccept(c.value.offer, m)
      case Err(err) => shape := WritesOf(c.value, FailedAccept(FailedAcceptContract(c.value.offer, m, err)), env);
      case Ok((s, _)) =>
        if env.imported { shape := WritesOf(c.value, Signed(s), env); }
    }
  }

  lemma GetsSignShape(cfg: Config, n: Node, m: SignDlc, peer: PeerId, env: Env) returns (shape: Shape)
    requires cfg.lib.Sound() && Filed(n.store)
    ensures HasShape(n.store, OnSign(cfg, n, m, peer, env).0.store, shape)
    ensures shape.Still? || (shape.Writes? && shape.write == env.write(GetId(shape.next)) && shape.before.Accepted? &&
            Early(shape.next))
  {
    shape := Still;
    var c := Fetch(n, m.contractId, Some(peer), env);
    if c.Ok? && c.value.Accepted? {
      match cfg.lib.verifySign(c.value.accept, m)
      case Err(err) => shape := WritesOf(c.value, FailedSign(FailedSignContract(c.value.accept, m, err)), env);
      case Ok((s, _)) => shape := WritesOf(c.value, Signed(s), env);
    }
  }

  lemma StepShape(cfg: Config, n: Node, e: Event, env: Env) returns (shape: Shape)
    requires cfg.lib.Sound() && Filed(n.store)
    ensures HasShape(n.store, Apply(cfg, n, e, env).store, shape)
    ensures shape.Opens? ==> e == SendsOffer(Ok(shape.offer)) || (e.GetsOffer? && e.offer.temporaryId == shape.offer.id)
    ensures shape.Writes? ==> shape.write == env.write(GetId(shape.next))
    ensures shape.Writes? && !e.Checks? ==> Early(shape.next)
    ensures shape.Writes? && e.Checks? ==> e.id in n.store && shape.before == n.store[e.id]
    ensures shape.Writes? && shape.next.Accepted? ==> e.AcceptsOffer?
    ensures shape.Writes? && !HasContractId(shape.before) ==> Keyed(cfg.lib, shape.next)
    ensures shape.Writes? && !HasContractId(shape.before) && HasContractId(shape.next) ==>
            Recomputes(cfg, n, e, GetId(shape.next))
    ensures IdsUnclaimed(cfg, n, e) ==> UnclaimedWrite(n.store, shape)
  {
    shape := Still;
    match e
    case SendsOffer(built) =>
      if Apply(cfg, n, e, env).store != n.store { shape := Opens(built.value); }
    case GetsOffer(m, peer) =>
      if Apply(cfg, n, e, env).store != n.store { shape := Opens(OfferedContract(m.temporaryId, peer, m.infos)); }
    case AcceptsOffer(id, draw) => shape := AcceptsShape(cfg, n, id, draw, env);
    case RejectsOffer(id) =>
      if env.read && id in n.store && n.store[id].Offered? {
        shape := WritesOf(n.store[id], Rejected(n.store[id].offer), env);
      }
    case GetsAccept(m, peer) => shape := GetsAcceptShape(cfg, n, m, peer, env);
    case GetsSign(m, peer) => shape := GetsSignShape(cfg, n, m, peer, env);
    case Checks(id) =>
      if id in n.store { shape := CheckShape(cfg, n, n.store[id], env); }
  }

  lemma CheckShape(cfg: Config, n: Node, c: Contract, env: Env) returns (shape: Shape)
    requires Filed(n.store) && GetId(c) in n.store && n.store[GetId(c)] == c
    ensures HasShape(n.store, CheckContract(cfg, n, c, env).0.store, shape)
    ensures shape.Still? || (shape.Writes? && shape.before == c && SignedOrLater(c) &&
            shape.write == env.write(GetId(shape.next)))
  {
    shape := Still;
    match c
    case Signed(s) =>
      if env.confirmations(s.accepted.fundTxid).Some? &&
        env.confirmations(s.accepted.fundTxid).value >= NB_CONFIRMATIONS {
        shape := WritesOf(c, Confirmed(s), env);
      }
    case Confirmed(s) =>
      if s.channelId.None? {
        var found := ClosableOf(cfg, s, env);
        if found.Some? {
          match cfg.lib.signedCet(s, found.value.info, found.value.adaptor, found.value.attestations) {
            case Err(_) =>
            case Ok(cet) =>
              var r := CloseContract(cfg, n, s, cet, AttestationsOf(found.value.attestations), env);
              if r.1.Ok? { shape := WritesOf(c, r.1.value, env); }
          }
        } else if CheckRefund(cfg, n, s, env).0.store != n.store {
          shape := WritesOf(c, Refunded(s), env);
        }
      }
    case PreClosed(p) =>
      if env.confirmations(p.signedCet).Some? && env.confirmations(p.signedCet).value >= NB_CONFIRMATIONS {
        shape := WritesOf(c, ClosedFrom(cfg, p.signed, p.attestations, p.signedCet), env);
      }
    case _ =>
  }

  // The invariant of the store.

  /** No record's offer carries the id of a record that already has its contract id. */
  ghost predicate Apart(s: Store) {
    forall a, b :: a in s && b in s && HasContractId(s[a]) ==> GetTemporaryId(s[b]) != a
  }

  /** The contract id of a record is the one computed from its offer and its funding transaction. */
  predicate Keyed(lib: Dlc, c: Contract) {
    AcceptedOf(c).Some? ==>
      var a := AcceptedOf(c).value;
      a.contractId == lib.idOf(a.offered.id, a.fundTxid)
  }

  ghost predicate Coherent(lib: Dlc, s: Store) {
    Filed(s) && Apart(s) && forall id :: id in s ==> Keyed(lib, s[id])
  }

  ghost predicate UnclaimedWrite(s: Store, shape: Shape) {
    shape.Writes? && shape.before.Offered? && HasContractId(shape.next) ==>
      Unclaimed(s, GetId(shape.next), GetId(shape.before))
  }

  lemma ApartKept(s: Store, s': Store, shape: Shape)
    requires Filed(s) && Apart(s) && HasShape(s, s', shape) && UnclaimedWrite(s, shape)
    ensures Filed(s') && Apart(s')
  {
    if shape.Writes? {
      var next := shape.next;
      assert GetTemporaryId(next) == GetTemporaryId(s[GetId(shape.before)]);
      forall a, b | a in s' && b in s' && HasContractId(s'[a]) ensures GetTemporaryId(s'[b]) != a {
        assert a == GetId(next) || (a in s && s[a] == s'[a]);
        assert b == GetId(next) || (b in s && s[b] == s'[b]);
      }
    }
  }

  lemma CoherentKept(cfg: Config, n: Node, e: Event, env: Env)
    requires cfg.lib.Sound() && Coherent(cfg.lib, n.store) && IdsUnclaimed(cfg, n, e)
    ensures Coherent(cfg.lib, Apply(cfg, n, e, env).store)
  {
    var s, s' := n.store, Apply(cfg, n, e, env).store;
    var shape := StepShape(cfg, n, e, env);
    ApartKept(s, s', shape);
    forall id | id in s' ensures Keyed(cfg.lib, s'[id]) {
      if id in s && s'[id] == s[id] {
      } else {
        ChangedRow(s, s', shape, id);
        if shape.Writes? { assert Keyed(cfg.lib, shape.before); }
      }
    }
  }

  /** A row that a step changed holds the offer opened or the record written. */
  lemma ChangedRow(s: Store, s': Store, shape: Shape, id: ContractId)
    requires HasShape(s, s', shape) && id in s' && !(id in s && s'[id] == s[id])
    ensures (shape.Opens? && s'[id] == Offered(shape.offer)) || (shape.Writes? && s'[id] == shape.next)
  {
  }

  /** The record of this offer's contract was set back by accepting, or answering an accept, again. */
  ghost predicate Redone(shape: Shape, before: Contract, after: Contract) {
    && shape.Writes? && shape.before.Offered? && after == shape.next
    && (after.Accepted? || after.Signed?) && GetId(shape.before) == GetTemporaryId(before)
  }

  /** A record that has its contract id keeps it and its offer. It stays as it is or moves along an edge,
      unless an Offered record of the same offer was still there to be accepted again. */
  lemma ContractRowsMove(s: Store, s': Store, shape: Shape, id: ContractId)
    requires Filed(s) && Apart(s) && HasShape(s, s', shape) && UnclaimedWrite(s, shape)
    requires id in s && HasContractId(s[id])
    ensures id in s' && HasContractId(s'[id]) && GetTemporaryId(s'[id]) == GetTemporaryId(s[id])
    ensures s'[id] == s[id] || Edge(s[id], s'[id]) || Redone(shape, s[id], s'[id])
  {
    if shape.Writes? {
      assert GetTemporaryId(shape.next) == GetTemporaryId(s[GetId(shape.before)]);
      assert GetTemporaryId(shape.next) != id;
    }
  }

  // Runs.

  /** A run is judged against the true depth of transactions on the chain; `funding` remembers the
      funding transaction of every contract id ever stored. */
  datatype System = System(node: Node, depth: Txid -> nat, funding: map<ContractId, Txid>)

  datatype Step = Step(event: Event, env: Env, depth: Txid -> nat)

  /** What a run may rely on beyond a truthful chain. */
  datatype Regime = Regime(distinctIds: bool, freshOffers: bool, reliableDeletes: bool)

  ghost function Funding(s: Store): map<ContractId, Txid> {
    map id | id in s && FundTxid(s[id]).Some? :: FundTxid(s[id]).value
  }

  ghost function Next(cfg: Config, y: System, st: Step): System {
    var n := Apply(cfg, y.node, st.event, st.env);
    System(n, st.depth, y.funding + Funding(n.store))
  }

  /** Contract ids of different offers differ, offers are not received again, temporary rows are removed. */
  predicate Orderly(regime: Regime) { regime.distinctIds && regime.freshOffers && regime.reliableDeletes }

  /** The chain only grows, and lookups that answer tell the truth. */
  ghost predicate ChainAgrees(depth: Txid -> nat, st: Step) {
    forall t :: depth(t) <= st.depth(t) &&
      (st.env.confirmations(t).Some? ==> st.env.confirmations(t).value == st.depth(t))
  }

  ghost predicate Enabled(cfg: Config, regime: Regime, y: System, st: Step) {
    && ChainAgrees(y.depth, st)
    && (regime.distinctIds ==> IdsUnclaimed(cfg, y.node, st.event))
    && (regime.freshOffers ==> FreshOfferId(y.node, st.event))
    && (regime.reliableDeletes ==> forall id :: st.env.write(id).deleted)
  }

  ghost function After(cfg: Config, steps: seq<Step>): System {
    if steps == [] then System(Node(map[], []), _ => 0, map[])
    else Next(cfg, After(cfg, steps[..|steps| - 1]), steps[|steps| - 1])
  }

  ghost predicate Run(cfg: Config, regime: Regime, steps: seq<Step>) {
    steps == [] ||
    (Run(cfg, regime, steps[..|steps| - 1]) &&
      Enabled(cfg, regime, After(cfg, steps[..|steps| - 1]), steps[|steps| - 1]))
  }

  /** `more` is taken step by step from `y` on. */
  ghost function Onward(cfg: Config, y: System, more: seq<Step>): System
    decreases |more|
  {
    if more == [] then y else Onward(cfg, Next(cfg, y, more[0]), more[1..])
  }

  ghost predicate Continues(cfg: Config, regime: Regime, y: System, more: seq<Step>)
    decreases |more|
  {
    more == [] || (Enabled(cfg, regime, y, more[0]) && Continues(cfg, regime, Next(cfg, y, more[0]), more[1..]))
  }

  lemma RunExtends(cfg: Config, regime: Regime, steps: seq<Step>, st: Step)
    requires Run(cfg, regime, steps) && Enabled(cfg, regime, After(cfg, steps), st)
    ensures Run(cfg, regime, steps + [st]) && After(cfg, steps + [st]) == Next(cfg, After(cfg, steps), st)
  {
    RunUnfolds(cfg, regime, steps + [st]);
    assert (steps + [st])[..|steps|] == steps;
  }

  lemma RunUnfolds(cfg: Config, regime: Regime, steps: seq<Step>)
    requires steps != []
    ensures var before, last := steps[..|steps| - 1], steps[|steps| - 1];
            && (Run(cfg, regime, steps) <==> Run(cfg, regime, before) && Enabled(cfg, regime, After(cfg, before), last))
            && After(cfg, steps) == Next(cfg, After(cfg, before), last)
  {
  }

  /** Steps that may be taken after a run lengthen it. */
  lemma {:induction false} RunContinues(cfg: Config, regime: Regime, steps: seq<Step>, y: System, more: seq<Step>)
    requires Run(cfg, regime, steps) && After(cfg, steps) == y && Continues(cfg, regime, y, more)
    ensures Run(cfg, regime, steps + more) && After(cfg, steps + more) == Onward(cfg, y, more)
    decreases |more|
  {
    if more == [] {
      assert steps + more == steps;
    } else {
      assert steps + [more[0]] + more[1..] == steps + more;
      var y1 := Next(cfg, y, more[0]);
      assert Run(cfg, regime, steps + [more[0]]) && After(cfg, steps + [more[0]]) == y1 by {
        RunExtends(cfg, regime, steps, more[0]);
      }
      RunContinues(cfg, regime, steps + [more[0]], y1, more[1..]);
    }
  }

  lemma {:induction false} RunKeepsFiled(cfg: Config, steps: seq<Step>)
    ensures Filed(After(cfg, steps).node.store)
  {
    if steps != [] { RunKeepsFiled(cfg, steps[..|steps| - 1]); }
  }

  lemma {:induction false} RunKeepsCoherent(cfg: Config, regime: Regime, steps: seq<Step>)
    requires cfg.lib.Sound() && Run(cfg, regime, steps) && regime.distinctIds
    ensures Coherent(cfg.lib, After(cfg, steps).node.store)
  {
    if steps != [] {
      var before, last := steps[..|steps| - 1], steps[|steps| - 1];
      RunKeepsCoherent(cfg, regime, before);
      CoherentKept(cfg, After(cfg, before).node, last.event, last.env);
    }
  }

  // Lifecycle.

  /** At most one record per offer: no offer is live both under its own id and under a contract id. */
  ghost predicate OnePerOffer(s: Store) {
    forall a, b :: a in s && b in s && GetTemporaryId(s[a]) == GetTemporaryId(s[b]) ==> a == b
  }

  /** Offer by offer, the record is new and Offered, unchanged, or moved along an edge with its terms
      kept; only an Offered record can disappear. */
  ghost predicate OffersMove(s: Store, s': Store) {
    && (forall a, b :: a in s && b in s' && GetTemporaryId(s[a]) == GetTemporaryId(s'[b]) ==>
        s'[b] == s[a] || (Edge(s[a], s'[b]) && TermsKept(s[a], s'[b])))
    && (forall a :: a in s && !s[a].Offered? ==> exists b :: b in s' && GetTemporaryId(s'[b]) == GetTemporaryId(s[a]))
    && (forall b :: b in s' && !s'[b].Offered? ==> exists a :: a in s && GetTemporaryId(s[a]) == GetTemporaryId(s'[b]))
  }

  /** A written record touches only its own row and the row of its offer. */
  lemma WriteTouches(s: Store, s': Store, shape: Shape)
    requires Filed(s) && Apart(s) && OnePerOffer(s) && HasShape(s, s', shape) && UnclaimedWrite(s, shape)
    requires shape.Writes? && shape.write.deleted
    ensures forall b :: b in s && b != GetId(shape.before) ==> b in s' && s'[b] == s[b]
    ensures forall b :: b in s' ==> (b == GetId(shape.next) && s'[b] == shape.next) || (b in s && s'[b] == s[b])
    ensures GetId(shape.before) in s' && s'[GetId(shape.before)] == shape.before ==>
            GetId(shape.next) !in s' || GetId(shape.next) == GetId(shape.before)
    ensures GetId(shape.before) !in s' ==> shape.before.Offered?
  {
    var before, next := shape.before, shape.next;
    var t := GetTemporaryId(before);
    assert s[GetId(before)] == before && GetTemporaryId(next) == t;
    assert t in s ==> t == GetId(before) by {
      if t in s && !HasContractId(s[t]) { assert GetTemporaryId(s[t]) == t; }
    }
    assert GetId(next) in s ==> GetId(next) == GetId(before);
    assert HasContractId(before) ==> t != GetId(before);
  }

  lemma LifecycleStep(s: Store, s': Store, shape: Shape)
    requires Filed(s) && Apart(s) && OnePerOffer(s) && HasShape(s, s', shape) && UnclaimedWrite(s, shape)
    requires shape.Opens? ==> FreshOffer(s, shape.offer.id)
    requires shape.Writes? ==> shape.write.deleted
    ensures OnePerOffer(s') && OffersMove(s, s')
  {
    match shape
    case Still =>
    case Opens(o) => OpenMoves(s, s', o);
    case Writes(before, next, _) =>
      WriteTouches(s, s', shape);
      WriteMoves(s, s', before, next);
  }

  lemma OpenMoves(s: Store, s': Store, o: OfferedContract)
    requires OnePerOffer(s) && o.id !in s && s' == s[o.id := Offered(o)] && FreshOffer(s, o.id)
    ensures OnePerOffer(s') && OffersMove(s, s')
  {
    forall a | a in s ensures a in s' && s'[a] == s[a] {}
  }

  lemma WriteMoves(s: Store, s': Store, before: Contract, next: Contract)
    requires OnePerOffer(s) && GetId(before) in s && s[GetId(before)] == before && Edge(before, next)
    requires TermsKept(before, next)
    requires forall b :: b in s && b != GetId(before) ==> b in s' && s'[b] == s[b]
    requires forall b :: b in s' ==> (b == GetId(next) && s'[b] == next) || (b in s && s'[b] == s[b])
    requires GetId(before) in s' && s'[GetId(before)] == before ==> GetId(next) !in s' || GetId(next) == GetId(before)
    requires GetId(before) !in s' ==> before.Offered?
    ensures OnePerOffer(s') && OffersMove(s, s')
  {
    forall a, b | a in s && b in s' && GetTemporaryId(s[a]) == GetTemporaryId(s'[b])
      ensures s'[b] == s[a] || (Edge(s[a], s'[b]) && TermsKept(s[a], s'[b]))
    {
    }
    forall a | a in s && !s[a].Offered? ensures exists b :: b in s' && GetTemporaryId(s'[b]) == GetTemporaryId(s[a]) {
      assert a in s' && GetTemporaryId(s'[a]) == GetTemporaryId(s[a]);
    }
    forall b | b in s' && !s'[b].Offered? ensures exists a :: a in s && GetTemporaryId(s[a]) == GetTemporaryId(s'[b]) {
      if !(b in s && s'[b] == s[b]) { assert GetTemporaryId(s[GetId(before)]) == GetTemporaryId(s'[b]); }
    }
  }

  /** In every run with fresh ids and temporary rows removed, every contract moves only along the
      edges of the lifecycle and no offer is live twice. Writes may fail. */
  lemma {:induction false} ContractsFollowLifecycle(cfg: Config, regime: Regime, steps: seq<Step>)
    requires cfg.lib.Sound() && Run(cfg, regime, steps) && Orderly(regime)
    ensures OnePerOffer(After(cfg, steps).node.store)
    ensures steps != [] ==> OffersMove(After(cfg, steps[..|steps| - 1]).node.store, After(cfg, steps).node.store)
  {
    if steps != [] {
      var before, last := steps[..|steps| - 1], steps[|steps| - 1];
      ContractsFollowLifecycle(cfg, regime, before);
      RunKeepsCoherent(cfg, regime, before);
      var n := After(cfg, before).node;
      var shape := StepShape(cfg, n, last.event, last.env);
      LifecycleStep(n.store, Apply(cfg, n, last.event, last.env).store, shape);
    }
  }

  lemma TerminalStays(s: Store, s': Store, id: ContractId)
    requires Filed(s) && Filed(s') && OffersMove(s, s') && id in s && Terminal(s[id])
    ensures id in s' && s'[id] == s[id]
  {
    assert !s[id].Offered?;
    var b :| b in s' && GetTemporaryId(s'[b]) == GetTemporaryId(s[id]);
    assert s'[b] == s[id] by { assert !Edge(s[id], s'[b]); }
    assert GetId(s'[b]) == b && GetId(s[id]) == id;
  }

  /** The last states are absorbing: a terminal record is the same at every later point of the run. */
  lemma {:induction false} TerminalForever(cfg: Config, regime: Regime, steps: seq<Step>, k: nat, id: ContractId)
    requires cfg.lib.Sound() && Run(cfg, regime, steps) && Orderly(regime)
    requires k <= |steps| && id in After(cfg, steps[..k]).node.store && Terminal(After(cfg, steps[..k]).node.store[id])
    ensures id in After(cfg, steps).node.store &&
            After(cfg, steps).node.store[id] == After(cfg, steps[..k]).node.store[id]
  {
    if k == |steps| {
      assert steps[..k] == steps;
    } else {
      var before := steps[..|steps| - 1];
      assert before[..k] == steps[..k];
      TerminalForever(cfg, regime, before, k, id);
      ContractsFollowLifecycle(cfg, regime, steps);
      RunKeepsCoherent(cfg, regime, before);
      RunKeepsCoherent(cfg, regime, steps);
      TerminalStays(After(cfg, before).node.store, After(cfg, steps).node.store, id);
    }
  }

  // Spending the funding output.

  function Spends(sent: seq<Broadcast>, cid: ContractId): nat {
    if sent == [] then 0
    else
      var b := sent[|sent| - 1];
      Spends(sent[..|sent| - 1], cid) + if !b.FundTx? && b.cid == cid then 1 else 0
  }

  /** The refund is past the lock time of its contract at the time it was read from the clock. */
  predicate RefundDue(c: Contract, b: Broadcast, env: Env)
    requires c.Confirmed? && b.RefundTx?
  {
    b.lockTime == c.confirmed.accepted.refundLockTime && b.lockTime <= b.at && env.now == Some(b.at)
  }

  lemma SpendsAppend(sent: seq<Broadcast>, b: Broadcast, cid: ContractId)
    ensures Spends(sent + [b], cid) == Spends(sent, cid) + if !b.FundTx? && b.cid == cid then 1 else 0
  {
    assert (sent + [b])[..|sent|] == sent;
  }

  /** What a step broadcasts: nothing, a funding transaction of a contract just signed, or a spend of
      a contract that was Confirmed, not yet on chain, which is then settled if the write got through. */
  lemma StepSends(cfg: Config, n: Node, e: Event, env: Env) returns (sent: seq<Broadcast>)
    requires cfg.lib.Sound() && Filed(n.store)
    ensures Apply(cfg, n, e, env).sent == n.sent + sent && |sent| <= 1
    ensures sent != [] && !sent[0].FundTx? ==>
              && e == Checks(sent[0].cid) && sent[0].cid in n.store && n.store[sent[0].cid].Confirmed?
              && (env.write(sent[0].cid).written ==>
                  sent[0].cid in Apply(cfg, n, e, env).store && Settled(Apply(cfg, n, e, env).store[sent[0].cid]))
              && env.confirmations(sent[0].txid) == Some(0)
              && (sent[0].RefundTx? ==> RefundDue(n.store[sent[0].cid], sent[0], env))
    ensures sent != [] && sent[0].FundTx? ==>
              e.GetsSign? && sent[0].cid == e.sign.contractId && sent[0].cid in n.store &&
                n.store[sent[0].cid].Accepted?
              && cfg.lib.verifySign(n.store[sent[0].cid].accept, e.sign).Ok?
              && sent[0].txid == n.store[sent[0].cid].accept.fundTxid
              && sent[0].cid in Apply(cfg, n, e, env).store && Apply(cfg, n, e, env).store[sent[0].cid].Signed?
  {
    var n' := Apply(cfg, n, e, env);
    sent := [];
    if n'.sent != n.sent { sent := [n'.sent[|n'.sent| - 1]]; }
  }

  /** At most one spend was broadcast for the contract, and then it is on record as settled. */
  ghost predicate SpentOnce(n: Node, cid: ContractId) {
    Spends(n.sent, cid) <= 1 && (Spends(n.sent, cid) > 0 ==> cid in n.store && Settled(n.store[cid]))
  }

  /** Whenever the run broadcast a spend of this contract, the write that records it got through. */
  ghost predicate SpendsRecorded(cfg: Config, steps: seq<Step>, cid: ContractId) {
    steps == [] ||
    var before, last := steps[..|steps| - 1], steps[|steps| - 1];
    && SpendsRecorded(cfg, before, cid)
    && (Spends(After(cfg, steps).node.sent, cid) > Spends(After(cfg, before).node.sent, cid) ==>
        last.env.write(cid).written)
  }

  lemma SpentOnceStep(cfg: Config, n: Node, e: Event, env: Env, cid: ContractId)
    requires cfg.lib.Sound() && Filed(n.store) && SpentOnce(n, cid)
    requires var n' := Apply(cfg, n, e, env);
             && (cid in n.store && Settled(n.store[cid]) ==> cid in n'.store && Settled(n'.store[cid]))
             && (Spends(n'.sent, cid) > Spends(n.sent, cid) ==> env.write(cid).written)
    ensures SpentOnce(Apply(cfg, n, e, env), cid)
  {
    var sent := StepSends(cfg, n, e, env);
    if sent == [] {
      assert Apply(cfg, n, e, env).sent == n.sent;
    } else {
      assert sent == [sent[0]];
      SpendsAppend(n.sent, sent[0], cid);
    }
  }

  /** The event sets a settled contract back: an Offered record of its offer is still there, and accepting
      it or answering an accept for it computes the contract's id again. */
  ghost predicate SetsBack(cfg: Config, n: Node, e: Event, cid: ContractId) {
    cid in n.store && Settled(n.store[cid]) && Recomputes(cfg, n, e, cid)
  }

  lemma SettledStays(cfg: Config, n: Node, e: Event, env: Env, cid: ContractId)
    requires cfg.lib.Sound() && Filed(n.store) && Apart(n.store) && IdsUnclaimed(cfg, n, e)
    requires cid in n.store && Settled(n.store[cid]) && !SetsBack(cfg, n, e, cid)
    ensures cid in Apply(cfg, n, e, env).store && Settled(Apply(cfg, n, e, env).store[cid])
  {
    var shape := StepShape(cfg, n, e, env);
    ContractRowsMove(n.store, Apply(cfg, n, e, env).store, shape, cid);
  }

  /** A settled contract stays settled, whatever calls fail, exactly when the event does not set it back. */
  lemma SettledStaysIff(cfg: Config, n: Node, e: Event, cid: ContractId)
    requires cfg.lib.Sound() && Filed(n.store) && Apart(n.store) && IdsUnclaimed(cfg, n, e)
    requires cid in n.store && Settled(n.store[cid])
    ensures (forall env :: cid in Apply(cfg, n, e, env).store && Settled(Apply(cfg, n, e, env).store[cid]))
            <==> !SetsBack(cfg, n, e, cid)
  {
    if SetsBack(cfg, n, e, cid) {
      var env := Env(_ => None, None, (_, _) => None, _ => false, _ => Write(true, true), true, true);
      assert env.read && env.imported && env.write(cid) == Write(true, true);
      assert !Settled(Apply(cfg, n, e, env).store[cid]);
    } else {
      forall env ensures cid in Apply(cfg, n, e, env).store && Settled(Apply(cfg, n, e, env).store[cid]) {
        SettledStays(cfg, n, e, env, cid);
      }
    }
  }

  ghost predicate NeverSetBack(cfg: Config, steps: seq<Step>, cid: ContractId) {
    steps == [] ||
    var before, last := steps[..|steps| - 1], steps[|steps| - 1];
    NeverSetBack(cfg, before, cid) && !SetsBack(cfg, After(cfg, before).node, last.event, cid)
  }

  /** With one record per offer there is no Offered record left to set a contract back. */
  lemma {:induction false} OrderlyNeverSetsBack(cfg: Config, regime: Regime, steps: seq<Step>, cid: ContractId)
    requires cfg.lib.Sound() && Run(cfg, regime, steps) && Orderly(regime)
    ensures NeverSetBack(cfg, steps, cid)
  {
    if steps != [] {
      var before, last := steps[..|steps| - 1], steps[|steps| - 1];
      OrderlyNeverSetsBack(cfg, regime, before, cid);
      RunKeepsCoherent(cfg, regime, before);
      ContractsFollowLifecycle(cfg, regime, before);
      OneRecordNotSetBack(cfg, After(cfg, before).node, last.event, cid);
    }
  }

  lemma OneRecordNotSetBack(cfg: Config, n: Node, e: Event, cid: ContractId)
    requires Filed(n.store) && OnePerOffer(n.store) && IdsUnclaimed(cfg, n, e)
    ensures !SetsBack(cfg, n, e, cid)
  {
  }

  /** In every run over distinct contract ids in which this contract is never set back, at most one
      transaction that spends its funding output is broadcast, provided that the write recording it gets
      through: never a closing transaction and the refund, never two closing transactions. Any other
      call may fail. */
  lemma {:induction false} FundingSpentAtMostOnce(cfg: Config, regime: Regime, steps: seq<Step>, cid: ContractId)
    requires cfg.lib.Sound() && Run(cfg, regime, steps) && regime.distinctIds
    requires NeverSetBack(cfg, steps, cid) && SpendsRecorded(cfg, steps, cid)
    ensures SpentOnce(After(cfg, steps).node, cid)
  {
    if steps != [] {
      var before, last := steps[..|steps| - 1], steps[|steps| - 1];
      FundingSpentAtMostOnce(cfg, regime, before, cid);
      RunKeepsCoherent(cfg, regime, before);
      var n := After(cfg, before).node;
      if cid in n.store && Settled(n.store[cid]) { SettledStays(cfg, n, last.event, last.env, cid); }
      SpentOnceStep(cfg, n, last.event, last.env, cid);
    }
  }

  /** So it is in every run with offers received once and temporary rows removed. */
  lemma OrderlySpentAtMostOnce(cfg: Config, regime: Regime, steps: seq<Step>, cid: ContractId)
    requires cfg.lib.Sound() && Run(cfg, regime, steps) && Orderly(regime) && SpendsRecorded(cfg, steps, cid)
    ensures SpentOnce(After(cfg, steps).node, cid)
  {
    OrderlyNeverSetsBack(cfg, regime, steps, cid);
    FundingSpentAtMostOnce(cfg, regime, steps, cid);
  }

  /** In every run whatsoever, no refund is broadcast before its lock time. */
  lemma {:induction false} RefundsAwaitLockTime(cfg: Config, regime: Regime, steps: seq<Step>)
    requires cfg.lib.Sound() && Run(cfg, regime, steps)
    ensures forall b :: b in After(cfg, steps).node.sent && b.RefundTx? ==> b.lockTime <= b.at
  {
    if steps != [] {
      var before, last := steps[..|steps| - 1], steps[|steps| - 1];
      RefundsAwaitLockTime(cfg, regime, before);
      RunKeepsFiled(cfg, before);
      RefundAwaits(cfg, After(cfg, before).node, last.event, last.env);
    }
  }

  lemma RefundAwaits(cfg: Config, n: Node, e: Event, env: Env)
    requires cfg.lib.Sound() && Filed(n.store)
    ensures forall b :: b in Apply(cfg, n, e, env).sent && b.RefundTx? ==> b in n.sent || b.lockTime <= b.at
  {
    var sent := StepSends(cfg, n, e, env);
  }

  /** Where reliable writes matter: a spend that a check broadcasts is on record exactly when its
      write gets through. */
  lemma SpendRecordedIff(cfg: Config, n: Node, id: ContractId, env: Env)
    requires cfg.lib.Sound() && Filed(n.store) && Apply(cfg, n, Checks(id), env).sent != n.sent
    ensures id in n.store && Settled(Apply(cfg, n, Checks(id), env).store[id]) <==> env.write(id).written
  {
    var sent := StepSends(cfg, n, Checks(id), env);
    var shape := StepShape(cfg, n, Checks(id), env);
  }

  /** Without it the same output can be spent twice: a closing transaction is broadcast and its record
      is not written; then the attestations are no longer served, the lock time has come, and the
      refund goes out as well. */
  lemma UnrecordedSpendIsRepeated(cfg: Config, n: Node, s: SignedContract, cet: Txid, env1: Env, env2: Env)
    requires cfg.lib.Sound() && Holds(n.store, Confirmed(s)) && s.channelId.None?
    requires CetOf(cfg, s, env1) == Some(cet) && env1.confirmations(cet) == Some(0) && env1.send(cet)
    requires !env1.write(s.accepted.contractId).written
    requires ClosableOf(cfg, s, env2).None? && RefundGoesOut(cfg, s, env2)
    ensures var id := s.accepted.contractId;
            Apply(cfg, Apply(cfg, n, Checks(id), env1), Checks(id), env2).sent
            == n.sent + [CetTx(id, cet), RefundTx(id, s.accepted.refundTxid, s.accepted.refundLockTime, env2.now.value)]
  {
    var id := s.accepted.contractId;
    var n1 := Apply(cfg, n, Checks(id), env1);
    assert n1 == Node(n.store, n.sent + [CetTx(id, cet)]);
    assert CheckContract(cfg, n1, Confirmed(s), env2) == CheckRefund(cfg, n1, s, env2);
  }

  /** The refund is due, not on chain, and can be signed and broadcast. */
  predicate RefundGoesOut(cfg: Config, s: SignedContract, env: Env) {
    && env.now.Some? && s.accepted.refundLockTime <= env.now.value
    && env.confirmations(s.accepted.refundTxid) == Some(0)
    && cfg.lib.signedRefund(s).Ok? && env.send(s.accepted.refundTxid)
  }

  // Depth on the chain.

  /** Every confirmed contract's funding transaction, every closed contract's closing transaction,
      is at least six deep; every pre-closed contract's was broadcast or seen on chain. */
  ghost predicate Deep(y: System) {
    forall id :: id in y.node.store ==> DeepRow(y, id, y.node.store[id])
  }

  /** The chain was asked and had the transaction at this depth or deeper. */
  predicate SeenDeep(env: Env, txid: Txid, depth: nat) {
    env.confirmations(txid).Some? && env.confirmations(txid).value >= depth
  }

  /** What justifies the new record of a check. */
  lemma CheckReason(cfg: Config, n: Node, c: Contract, env: Env)
    requires Filed(n.store) && GetId(c) in n.store && n.store[GetId(c)] == c
    ensures var n' := CheckContract(cfg, n, c, env).0;
            GetId(c) in n'.store &&
            var d := n'.store[GetId(c)];
            d != c ==>
              && (d.Confirmed? ==> c.Signed? && SeenDeep(env, c.signed.accepted.fundTxid, NB_CONFIRMATIONS))
              && (d.Closed? ==> d.closed.signedCet.Some? && SeenDeep(env, d.closed.signedCet.value, NB_CONFIRMATIONS))
              && (d.PreClosed? ==>
                    CetTx(GetId(c), d.preClosed.signedCet) in n'.sent || SeenDeep(env, d.preClosed.signedCet, 1))
  {
    var shape := CheckShape(cfg, n, c, env);
    if c.Confirmed? && c.confirmed.channelId.None? {
      var s := c.confirmed;
      var found := ClosableOf(cfg, s, env);
      if found.Some? {
        var cet := cfg.lib.signedCet(s, found.value.info, found.value.adaptor, found.value.attestations);
        if cet.Ok? {
          var r := CloseContract(cfg, n, s, cet.value, AttestationsOf(found.value.attestations), env);
          if r.0 != n { assert r.0.sent[|n.sent|] == CetTx(GetId(c), cet.value); }
        }
      }
    }
  }

  ghost predicate DeepRow(y: System, id: ContractId, c: Contract) {
    && (FundTxid(c).Some? ==> id in y.funding && y.funding[id] == FundTxid(c).value)
    && (c.Confirmed? || Settled(c) ==> id in y.funding && y.depth(y.funding[id]) >= 6)
    && (c.Closed? ==> c.closed.signedCet.Some? && y.depth(c.closed.signedCet.value) >= 6)
    && (c.PreClosed? ==> CetTx(id, c.preClosed.signedCet) in y.node.sent || y.depth(c.preClosed.signedCet) >= 1)
  }

  /** A record that the step left alone. */
  lemma DeepKept(y: System, y': System, id: ContractId)
    requires id in y.node.store && DeepRow(y, id, y.node.store[id])
    requires id in y'.node.store && y'.node.store[id] == y.node.store[id]
    requires forall t :: y.depth(t) <= y'.depth(t)
    requires forall b :: b in y.node.sent ==> b in y'.node.sent
    requires y'.funding == y.funding + Funding(y'.node.store)
    ensures DeepRow(y', id, y'.node.store[id])
  {
  }

  /** A record that a check of it wrote. */
  lemma DeepChecked(cfg: Config, y: System, y': System, id: ContractId, env: Env)
    requires Filed(y.node.store) && id in y.node.store && DeepRow(y, id, y.node.store[id])
    requires y'.node == CheckContract(cfg, y.node, y.node.store[id], env).0
    requires forall t ::
               y.depth(t) <= y'.depth(t) && (env.confirmations(t).Some? ==> env.confirmations(t).value == y'.depth(t))
    requires y'.funding == y.funding + Funding(y'.node.store)
    requires id in y'.node.store && y'.node.store[id] != y.node.store[id]
    ensures DeepRow(y', id, y'.node.store[id])
  {
    var c := y.node.store[id];
    CheckReason(cfg, y.node, c, env);
    var shape := CheckShape(cfg, y.node, c, env);
    assert Edge(c, y'.node.store[id]);
  }

  /** A record in a state that asks for no depth. */
  lemma DeepNew(y: System, id: ContractId)
    requires id in y.node.store && Early(y.node.store[id])
    requires exists funding :: y.funding == funding + Funding(y.node.store)
    ensures DeepRow(y, id, y.node.store[id])
  {
  }

  lemma DeepStep(cfg: Config, y: System, st: Step)
    requires cfg.lib.Sound() && Filed(y.node.store) && Deep(y) && ChainAgrees(y.depth, st)
    ensures Deep(Next(cfg, y, st))
  {
    var y' := Next(cfg, y, st);
    var s, s' := y.node.store, y'.node.store;
    var shape := StepShape(cfg, y.node, st.event, st.env);
    var sent := StepSends(cfg, y.node, st.event, st.env);
    forall id | id in s' ensures DeepRow(y', id, s'[id]) {
      if id in s && s'[id] == s[id] {
        assert DeepRow(y, id, s[id]);
        DeepKept(y, y', id);
      } else if st.event.Checks? {
        ChangedRow(s, s', shape, id);
        assert id == st.event.id;
        assert DeepRow(y, id, s[id]);
        DeepChecked(cfg, y, y', id, st.env);
      } else {
        ChangedRow(s, s', shape, id);
        DeepNew(y', id);
      }
    }
  }

  /** In every run over a chain that only grows, the depths hold at every point, whatever store calls
      fail. */
  lemma {:induction false} StatesHaveDepth(cfg: Config, regime: Regime, steps: seq<Step>)
    requires cfg.lib.Sound() && Run(cfg, regime, steps)
    ensures Deep(After(cfg, steps))
  {
    if steps != [] {
      var before := steps[..|steps| - 1];
      StatesHaveDepth(cfg, regime, before);
      RunKeepsFiled(cfg, before);
      DeepStep(cfg, After(cfg, before), steps[|steps| - 1]);
    }
  }

  // What goes wrong when offers and accepts repeat.

  /** Receiving an offer again after accepting it makes it live twice: an accepted offer message leaves
      one record per offer exactly when no record came from that offer. */
  lemma OfferLiveTwiceIff(cfg: Config, n: Node, m: OfferDlc, peer: PeerId, env: Env)
    requires Filed(n.store) && OnePerOffer(n.store) && OnOffer(cfg, n, m, peer, env).1.Ok?
    ensures OnePerOffer(OnOffer(cfg, n, m, peer, env).0.store) <==> FreshOffer(n.store, m.temporaryId)
  {
    var s' := OnOffer(cfg, n, m, peer, env).0.store;
    if !FreshOffer(n.store, m.temporaryId) {
      var k :| k in n.store && GetTemporaryId(n.store[k]) == m.temporaryId;
      assert k in s' && m.temporaryId in s' && GetTemporaryId(s'[k]) == GetTemporaryId(s'[m.temporaryId]);
    }
  }

  ghost predicate ContractRowsKept(s: Store, s': Store) {
    forall k :: k in s && HasContractId(s[k]) ==> k in s' && (s'[k] == s[k] || Edge(s[k], s'[k]))
  }

  ghost predicate NotTaken(s: Store, a: AcceptedContract) {
    a.contractId in s && HasContractId(s[a.contractId]) ==> s[a.contractId] == Accepted(a)
  }

  /** Accepting keeps every record that has its contract id, or moves it along an edge, exactly when
      the id it computes is not taken by a different one of them. */
  lemma AcceptOverwritesIff(cfg: Config, n: Node, id: ContractId, draw: nat, env: Env)
    requires cfg.lib.Sound() && Filed(n.store) && Apart(n.store) && AcceptContractOffer(cfg, n, id, draw, env).1.Ok?
    ensures ContractRowsKept(n.store, AcceptContractOffer(cfg, n, id, draw, env).0.store)
       <==> NotTaken(n.store, cfg.lib.accept(n.store[id].offer, draw).value.0)
  {
    var a := cfg.lib.accept(n.store[id].offer, draw).value.0;
    var s, s' := n.store, AcceptContractOffer(cfg, n, id, draw, env).0.store;
    assert s' == Update(s, Accepted(a), env.write(a.contractId)).0 && s'[a.contractId] == Accepted(a);
    forall k | k in s && HasContractId(s[k]) && k != a.contractId ensures k in s' && s'[k] == s[k] {
      assert GetTemporaryId(s[id]) != k;
    }
  }

  /** Answering an accept keeps them exactly when the id it computes is not taken by a contract that has
      moved on; only a leftover Offered record lets an accept be answered again. */
  lemma AnswerOverwritesIff(cfg: Config, n: Node, m: AcceptDlc, peer: PeerId, env: Env)
    requires cfg.lib.Sound() && Filed(n.store) && Apart(n.store) && OnAccept(cfg, n, m, peer, env).1.Ok?
    ensures var s := cfg.lib.verifyAccept(n.store[m.temporaryId].offer, m).value.0;
            ContractRowsKept(n.store, OnAccept(cfg, n, m, peer, env).0.store)
            <==> (s.accepted.contractId in n.store && HasContractId(n.store[s.accepted.contractId]) ==>
                    n.store[s.accepted.contractId].Accepted? || n.store[s.accepted.contractId] == Signed(s))
  {
    var signed := cfg.lib.verifyAccept(n.store[m.temporaryId].offer, m).value.0;
    var id := signed.accepted.contractId;
    var s, s' := n.store, OnAccept(cfg, n, m, peer, env).0.store;
    assert s' == Update(s, Signed(signed), env.write(id)).0 && s'[id] == Signed(signed);
    forall k | k in s && HasContractId(s[k]) && k != id ensures k in s' && s'[k] == s[k] {
      assert GetTemporaryId(s[m.temporaryId]) != k;
    }
  }

  /** An offer is received and accepted, its temporary row is removed, and the same offer is received
      again: it is then live under both ids. */
  lemma ReofferLivesTwice(cfg: Config, n: Node, m: OfferDlc, peer: PeerId, draw: nat, env: Env)
    requires cfg.lib.Sound() && cfg.lib.validOffer(m) && Smooth(env) && m.temporaryId !in n.store
    requires cfg.lib.accept(OfferedContract(m.temporaryId, peer, m.infos), draw).Ok?
    requires cfg.lib.accept(OfferedContract(m.temporaryId, peer, m.infos), draw).value.0.contractId != m.temporaryId
    ensures var n1 := Apply(cfg, n, GetsOffer(m, peer), env);
            var n2 := Apply(cfg, n1, AcceptsOffer(m.temporaryId, draw), env);
            var n3 := Apply(cfg, n2, GetsOffer(m, peer), env);
            && m.temporaryId !in n2.store
            && m.temporaryId in n3.store && n3.store[m.temporaryId].Offered?
            && (exists id :: id in n3.store && n3.store[id].Accepted? && GetTemporaryId(n3.store[id]) == m.temporaryId)
            && !OnePerOffer(n3.store)
  {
    var o := OfferedContract(m.temporaryId, peer, m.infos);
    var a := cfg.lib.accept(o, draw).value.0;
    var n1 := Apply(cfg, n, GetsOffer(m, peer), env);
    assert n1.store == n.store[o.id := Offered(o)];
    var n2 := Apply(cfg, n1, AcceptsOffer(m.temporaryId, draw), env);
    assert n2.store == (n1.store - {o.id})[a.contractId := Accepted(a)];
    var n3 := Apply(cfg, n2, GetsOffer(m, peer), env);
    assert n3.store == n2.store[o.id := Offered(o)];
    assert n3.store[a.contractId] == Accepted(a) && GetTemporaryId(Accepted(a)) == GetTemporaryId(Offered(o));
  }
}
