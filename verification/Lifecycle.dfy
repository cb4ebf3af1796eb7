/** What each step of the manager does to the store and which transactions it broadcasts, as
    functions of the answers that the library, the chain, the oracles, the clock and the store give. */
module Lifecycle {
  import opened Base
  import opened Contracts
  import opened ContractStore
  import opened Closable

  const NB_CONFIRMATIONS := 6

  datatype OfferDlc = OfferDlc(temporaryId: ContractId, infos: seq<ContractInfo>)
  datatype Message =
    | OfferMessage(offer: OfferDlc)
    | AcceptMessage(accept: AcceptDlc)
    | SignMessage(sign: SignDlc)
    | OtherMessage

  /** The DLC library. `accept` picks inputs and serial numbers: its second argument is the draw. */
  datatype Dlc = Dlc(
    validOffer: OfferDlc -> bool,
    accept: (OfferedContract, nat) -> Result<(AcceptedContract, AcceptDlc)>,
    verifyAccept: (OfferedContract, AcceptDlc) -> Result<(SignedContract, SignDlc)>,
    verifySign: (AcceptedContract, SignDlc) -> Result<(SignedContract, Txid)>,
    signedCet: (SignedContract, ContractInfo, AdaptorInfo, seq<Answer>) -> Result<Txid>,
    signedRefund: SignedContract -> Result<Txid>,
    pnl: (AcceptedContract, Txid) -> int,
    idOf: (ContractId, Txid) -> ContractId)
  {
    /** What is assumed of the library: each step keeps the contract it was given, a Sign message
        names the contract it signs, signing verifies into the funding transaction, and signing the
        refund does not change its id. The contract id is computed from the id of the offer and the
        funding transaction, and tells the funding transactions of one offer apart. */
    ghost predicate Sound() {
      && (forall o, draw :: accept(o, draw).Ok? ==>
            var a := accept(o, draw).value.0;
            a.offered == o && a.contractId == idOf(o.id, a.fundTxid))
      && (forall o, a :: verifyAccept(o, a).Ok? ==>
            var (s, m) := verifyAccept(o, a).value;
            && s.accepted.offered == o && m.contractId == s.accepted.contractId
            && s.accepted.contractId == idOf(o.id, s.accepted.fundTxid))
      && (forall id, x, y :: idOf(id, x) == idOf(id, y) ==> x == y)
      && (forall a, m :: verifySign(a, m).Ok? ==>
            verifySign(a, m).value.0.accepted == a && verifySign(a, m).value.1 == a.fundTxid)
      && (forall s :: signedRefund(s).Ok? ==> signedRefund(s).value == s.accepted.refundTxid)
    }
  }

  datatype Config = Config(lib: Dlc, oracles: Option<set<OracleKey>>)

  datatype Stage = SignedStage | ConfirmedStage | PreClosedStage

  /** The outside world during one step. `None` and `false` are failed calls. */
  datatype Env = Env(
    confirmations: Txid -> Option<nat>,
    now: Option<nat>,
    attest: Attestor,
    send: Txid -> bool,
    write: ContractId -> Write,
    read: bool,
    imported: bool)

  /** The outside world during a pass of the periodic check: whether each listing answers, and what
      each check of a contract finds when its turn comes. */
  datatype PassWorld = PassWorld(list: Stage -> bool, check: Stage -> ContractId -> Env)

  datatype Broadcast =
    | FundTx(cid: ContractId, txid: Txid)
    | CetTx(cid: ContractId, txid: Txid)
    | RefundTx(cid: ContractId, txid: Txid, lockTime: nat, at: nat)

  /** One manager: its store and everything it has broadcast, in order. */
  datatype Node = Node(store: Store, sent: seq<Broadcast>)

  function Put(n: Node, c: Contract, env: Env): (Node, bool) {
    var (s, ok) := Update(n.store, c, env.write(GetId(c)));
    (n.(store := s), ok)
  }

  function Send(n: Node, b: Broadcast): Node { n.(sent := n.sent + [b]) }

  /** The record under `id`, if it can be read and the peer, when given, is its counterparty. */
  function Fetch(n: Node, id: ContractId, peer: Option<PeerId>, env: Env): (r: Result<Contract>)
    ensures r.Ok? ==> id in n.store && r.value == n.store[id]
  {
    if !env.read then Err(StorageError)
    else if id !in n.store then Err(InvalidParameters)
    else if peer.Some? && GetCounterParty(n.store[id]) != peer.value then Err(InvalidParameters)
    else Ok(n.store[id])
  }

  function NewOffer(n: Node, o: OfferedContract, env: Env): (Node, bool) {
    var (s, ok) := Create(n.store, o, env.write(o.id).written);
    (n.(store := s), ok)
  }

  /** `built` is the outcome of validating the input, fetching announcements and building the offer. */
  function SendOffer(cfg: Config, n: Node, built: Result<OfferedContract>, env: Env): (Node, Result<OfferDlc>) {
    if cfg.oracles.None? then (n, Err(InvalidParameters))
    else
      match built
      case Err(e) => (n, Err(e))
      case Ok(o) =>
        var (n', ok) := NewOffer(n, o, env);
        (n', if ok then Ok(OfferDlc(o.id, o.infos)) else Err(StorageError))
  }

  function OnOffer(cfg: Config, n: Node, m: OfferDlc, peer: PeerId, env: Env): (Node, Result<()>) {
    if !cfg.lib.validOffer(m) then (n, Err(InvalidParameters))
    else if !env.read then (n, Err(StorageError))
    else if m.temporaryId in n.store then (n, Err(InvalidParameters))
    else
      var (n', ok) := NewOffer(n, OfferedContract(m.temporaryId, peer, m.infos), env);
      (n', if ok then Ok(()) else Err(StorageError))
  }

  function AcceptContractOffer(cfg: Config, n: Node, id: ContractId, draw: nat,
                               env: Env): (Node, Result<(ContractId, PeerId, AcceptDlc)>) {
    match Fetch(n, id, None, env)
    case Err(e) => (n, Err(e))
    case Ok(c) =>
      if !c.Offered? then (n, Err(InvalidState))
      else
        match cfg.lib.accept(c.offer, draw)
        case Err(e) => (n, Err(e))
        case Ok((accepted, message)) =>
          if !env.imported then (n, Err(WalletError))
          else
            var (n', ok) := Put(n, Accepted(accepted), env);
            (n', if ok then Ok((accepted.contractId, c.offer.counterParty, message)) else Err(StorageError))
  }

  function RejectOffer(n: Node, id: ContractId, env: Env): (Node, Result<()>) {
    if !env.read then (n, Err(StorageError))
    else if id in n.store && n.store[id].Offered? then
      var (n', ok) := Put(n, Rejected(n.store[id].offer), env);
      (n', if ok then Ok(()) else Err(StorageError))
    else (n, Ok(()))
  }

  function OnAccept(cfg: Config, n: Node, m: AcceptDlc, peer: PeerId, env: Env): (Node, Result<SignDlc>) {
    match Fetch(n, m.temporaryId, Some(peer), env)
    case Err(e) => (n, Err(e))
    case Ok(c) =>
      if !c.Offered? then (n, Err(InvalidState))
      else
        match cfg.lib.verifyAccept(c.offer, m)
        case Err(e) =>
          var (n', ok) := Put(n, FailedAccept(FailedAcceptContract(c.offer, m, e)), env);
          (n', Err(if ok then e else StorageError))
        case Ok((signed, message)) =>
          if !env.imported then (n, Err(WalletError))
          else
            var (n', ok) := Put(n, Signed(signed), env);
            (n', if ok then Ok(message) else Err(StorageError))
  }

  function OnSign(cfg: Config, n: Node, m: SignDlc, peer: PeerId, env: Env): (Node, Result<()>) {
    match Fetch(n, m.contractId, Some(peer), env)
    case Err(e) => (n, Err(e))
    case Ok(c) =>
      if !c.Accepted? then (n, Err(InvalidState))
      else
        match cfg.lib.verifySign(c.accept, m)
        case Err(e) =>
          var (n', ok) := Put(n, FailedSign(FailedSignContract(c.accept, m, e)), env);
          (n', Err(if ok then e else StorageError))
        case Ok((signed, fund)) =>
          var (n', ok) := Put(n, Signed(signed), env);
          if !ok then (n', Err(StorageError))
          else if env.send(fund) then (Send(n', FundTx(GetId(Signed(signed)), fund)), Ok(()))
          else (n', Err(BlockchainError))
  }

  // The periodic checks. A check advances a contract, stays quiet, or fails.

  datatype Verdict = Advanced | Quiet | Failed

  function Record(n: Node, c: Contract, v: Verdict, env: Env): (Node, Verdict) {
    var (n', ok) := Put(n, c, env);
    (n', if ok then v else Failed)
  }

  function CheckSigned(n: Node, s: SignedContract, env: Env): (Node, Verdict) {
    match env.confirmations(s.accepted.fundTxid)
    case None => (n, Failed)
    case Some(depth) => if depth >= NB_CONFIRMATIONS then Record(n, Confirmed(s), Advanced, env) else (n, Quiet)
  }

  function ClosedFrom(cfg: Config, s: SignedContract, attestations: Option<seq<Attestation>>, cet: Txid): Contract {
    var a := s.accepted;
    Closed(ClosedContract(attestations, Some(cet), a.contractId, a.offered.id, a.offered.counterParty,
      cfg.lib.pnl(a, cet)))
  }

  function AttestationsOf(answers: seq<Answer>): seq<Attestation> {
    seq(|answers|, i requires 0 <= i < |answers| => answers[i].1)
  }

  /** Broadcast the closing transaction unless it is already on chain, and say what to store. */
  function CloseContract(cfg: Config, n: Node, s: SignedContract, cet: Txid, attestations: seq<Attestation>,
                         env: Env): (Node, Result<Contract>) {
    match env.confirmations(cet)
    case None => (n, Err(BlockchainError))
    case Some(depth) =>
      var preClosed := PreClosed(PreClosedContract(s, Some(attestations), cet));
      if depth < 1 then
        if env.send(cet) then (Send(n, CetTx(s.accepted.contractId, cet)), Ok(preClosed)) else (n, Err(BlockchainError))
      else if depth < NB_CONFIRMATIONS then (n, Ok(preClosed))
      else (n, Ok(ClosedFrom(cfg, s, Some(attestations), cet)))
  }

  function CheckRefund(cfg: Config, n: Node, s: SignedContract, env: Env): (Node, Verdict) {
    if env.now.None? then (n, Failed)
    else if s.accepted.refundLockTime > env.now.value then (n, Quiet)
    else
      match env.confirmations(s.accepted.refundTxid)
      case None => (n, Failed)
      case Some(depth) =>
        if depth > 0 then Record(n, Refunded(s), Quiet, env)
        else
          match cfg.lib.signedRefund(s)
          case Err(_) => (n, Failed)
          case Ok(refund) =>
            if env.send(refund) then
              Record(Send(n, RefundTx(s.accepted.contractId, refund, s.accepted.refundLockTime, env.now.value)),
                Refunded(s), Quiet, env)
            else (n, Failed)
  }

  function ClosableOf(cfg: Config, s: SignedContract, env: Env): Option<ClosableInfo> {
    if cfg.oracles.None? then None
    else FirstClosable(cfg.oracles.value, env.attest, s.accepted.offered.infos, s.accepted.adaptorInfos)
  }

  /** The closing transaction that the attestations served in this world lead to, if any. */
  function CetOf(cfg: Config, s: SignedContract, env: Env): Option<Txid> {
    match ClosableOf(cfg, s, env)
    case None => None
    case Some(found) =>
      match cfg.lib.signedCet(s, found.info, found.adaptor, found.attestations)
      case Err(_) => None
      case Ok(cet) => Some(cet)
  }

  function CheckConfirmed(cfg: Config, n: Node, s: SignedContract, env: Env): (Node, Verdict) {
    match ClosableOf(cfg, s, env)
    case None => CheckRefund(cfg, n, s, env)
    case Some(found) =>
      match cfg.lib.signedCet(s, found.info, found.adaptor, found.attestations)
      case Err(_) => (n, Failed)
      case Ok(cet) =>
        match CloseContract(cfg, n, s, cet, AttestationsOf(found.attestations), env)
        case (n', Err(_)) => (n', Failed)
        case (n', Ok(c)) => Record(n', c, Advanced, env)
  }

  function CheckPreClosed(cfg: Config, n: Node, p: PreClosedContract, env: Env): (Node, Verdict) {
    match env.confirmations(p.signedCet)
    case None => (n, Failed)
    case Some(depth) =>
      if depth < NB_CONFIRMATIONS then (n, Quiet)
      else Record(n, ClosedFrom(cfg, p.signed, p.attestations, p.signedCet), Advanced, env)
  }

  predicate InStage(stage: Stage, c: Contract) {
    match stage
    case SignedStage => c.Signed?
    case ConfirmedStage => c.Confirmed?
    case PreClosedStage => c.PreClosed?
  }

  /** The check of one contract by the loop that handles its state; contracts that came from a
      channel are passed over once confirmed. */
  function CheckContract(cfg: Config, n: Node, c: Contract, env: Env): (Node, Verdict) {
    match c
    case Signed(s) => CheckSigned(n, s, env)
    case Confirmed(s) => if s.channelId.Some? then (n, Quiet) else CheckConfirmed(cfg, n, s, env)
    case PreClosed(p) => CheckPreClosed(cfg, n, p, env)
    case _ => (n, Quiet)
  }

  function InfosOf(c: Contract): seq<ContractInfo> {
    match c
    case Signed(s) => s.accepted.offered.infos
    case Confirmed(s) => s.accepted.offered.infos
    case PreClosed(p) => p.signed.accepted.offered.infos
    case _ => []
  }

  /** The event id reported for a contract: that of its first announcement. */
  function EventIdOf(c: Contract): Option<EventId> {
    var infos := InfosOf(c);
    if infos == [] || infos[0].announcements == [] then None else Some(infos[0].announcements[0].eventId)
  }

  type Entry = (ContractId, EventId)

  /** One loop of the periodic check over the contracts listed at its start, each checked in its own
      world. An advanced contract without an event id ends the pass with an error. */
  function RunStage(cfg: Config, n: Node, listed: seq<Contract>, at: ContractId -> Env): (Node, Result<seq<Entry>>)
    decreases |listed|
  {
    if listed == [] then (n, Ok([]))
    else
      var c := listed[0];
      var (n1, verdict) := CheckContract(cfg, n, c, at(GetId(c)));
      if verdict != Advanced then RunStage(cfg, n1, listed[1..], at)
      else if EventIdOf(c).None? then (n1, Err(InvalidState))
      else
        match RunStage(cfg, n1, listed[1..], at)
        case (n2, Err(e)) => (n2, Err(e))
        case (n2, Ok(entries)) => (n2, Ok([(GetId(c), EventIdOf(c).value)] + entries))
  }

  /** `listed` enumerates, without repetition, the stored contracts of a stage. */
  ghost predicate Lists(s: Store, stage: Stage, listed: seq<Contract>) {
    && (forall c :: c in listed <==> InStage(stage, c) && Holds(s, c))
    && (forall i, j :: 0 <= i < j < |listed| ==> GetId(listed[i]) != GetId(listed[j]))
  }

  /** A whole pass, given what each loop listed. A loop that fails ends the pass. */
  function RunPass(cfg: Config, n: Node, signed: seq<Contract>, confirmed: seq<Contract>, preClosed: seq<Contract>,
                   w: PassWorld): (Node, Result<seq<Entry>>) {
    if !w.list(SignedStage) then (n, Err(StorageError))
    else
      match RunStage(cfg, n, signed, w.check(SignedStage))
      case (n1, Err(e)) => (n1, Err(e))
      case (n1, Ok(r1)) =>
        if !w.list(ConfirmedStage) then (n1, Err(StorageError))
        else
          match RunStage(cfg, n1, confirmed, w.check(ConfirmedStage))
          case (n2, Err(e)) => (n2, Err(e))
          case (n2, Ok(r2)) =>
            if !w.list(PreClosedStage) then (n2, Err(StorageError))
            else
              match RunStage(cfg, n2, preClosed, w.check(PreClosedStage))
              case (n3, Err(e)) => (n3, Err(e))
              case (n3, Ok(r3)) => (n3, Ok(r1 + r2 + r3))
  }

  /** Each loop that is reached and whose listing answers lists the store as the loops before it left it. */
  ghost predicate PassLists(cfg: Config, n: Node, signed: seq<Contract>, confirmed: seq<Contract>,
                            preClosed: seq<Contract>, w: PassWorld) {
    w.list(SignedStage) ==>
      var (n1, r1) := RunStage(cfg, n, signed, w.check(SignedStage));
      && Lists(n.store, SignedStage, signed)
      && (r1.Ok? && w.list(ConfirmedStage) ==>
            var (n2, r2) := RunStage(cfg, n1, confirmed, w.check(ConfirmedStage));
            && Lists(n1.store, ConfirmedStage, confirmed)
            && (r2.Ok? && w.list(PreClosedStage) ==> Lists(n2.store, PreClosedStage, preClosed)))
  }
}
