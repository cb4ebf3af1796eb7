/** The contract records that the two wallets exchange and store. The payloads belong to the DLC
    library; only the parts that the manager or the storage provider looks at are kept. */
module Contracts {
  import opened Base

  // A contract id has 32 bytes; nothing below depends on its length.
  type ContractId = seq<Byte>
  type Txid = nat
  type PeerId = nat
  type OracleKey = nat
  type EventId = string

  datatype Attestation = Attestation(oracle: OracleKey, outcomes: seq<string>)
  datatype Announcement = Announcement(oracle: OracleKey, eventId: EventId)
  datatype ContractInfo = ContractInfo(announcements: seq<Announcement>, threshold: nat)
  datatype AdaptorInfo = AdaptorInfo(table: nat)

  datatype OfferedContract = OfferedContract(id: ContractId, counterParty: PeerId, infos: seq<ContractInfo>)

  datatype AcceptedContract = AcceptedContract(
    offered: OfferedContract,
    contractId: ContractId,
    adaptorInfos: seq<AdaptorInfo>,
    fundTxid: Txid,
    refundTxid: Txid,
    refundLockTime: nat)

  datatype SignedContract = SignedContract(accepted: AcceptedContract, channelId: Option<ContractId>)

  datatype PreClosedContract = PreClosedContract(
    signed: SignedContract,
    attestations: Option<seq<Attestation>>,
    signedCet: Txid)

  datatype ClosedContract = ClosedContract(
    attestations: Option<seq<Attestation>>,
    signedCet: Option<Txid>,
    contractId: ContractId,
    temporaryId: ContractId,
    counterParty: PeerId,
    pnl: int)

  datatype AcceptDlc = AcceptDlc(temporaryId: ContractId, signatures: seq<Byte>)
  datatype SignDlc = SignDlc(contractId: ContractId, signatures: seq<Byte>)

  datatype FailedAcceptContract = FailedAcceptContract(offered: OfferedContract, message: AcceptDlc, error: Error)
  datatype FailedSignContract = FailedSignContract(accepted: AcceptedContract, message: SignDlc, error: Error)

  datatype Contract =
    | Offered(offer: OfferedContract)
    | Accepted(accept: AcceptedContract)
    | Signed(signed: SignedContract)
    | Confirmed(confirmed: SignedContract)
    | PreClosed(preClosed: PreClosedContract)
    | Closed(closed: ClosedContract)
    | FailedAccept(failedAccept: FailedAcceptContract)
    | FailedSign(failedSign: FailedSignContract)
    | Refunded(refunded: SignedContract)
    | Rejected(rejected: OfferedContract)

  /** The id under which a record is stored. */
  function GetId(c: Contract): ContractId {
    match c
    case Offered(o) => o.id
    case Rejected(o) => o.id
    case FailedAccept(f) => f.offered.id
    case Accepted(a) => a.contractId
    case FailedSign(f) => f.accepted.contractId
    case Signed(s) => s.accepted.contractId
    case Confirmed(s) => s.accepted.contractId
    case Refunded(s) => s.accepted.contractId
    case PreClosed(p) => p.signed.accepted.contractId
    case Closed(d) => d.contractId
  }

  /** The id that the offer of this contract carried. */
  function GetTemporaryId(c: Contract): ContractId {
    match c
    case Offered(o) => o.id
    case Rejected(o) => o.id
    case FailedAccept(f) => f.offered.id
    case Accepted(a) => a.offered.id
    case FailedSign(f) => f.accepted.offered.id
    case Signed(s) => s.accepted.offered.id
    case Confirmed(s) => s.accepted.offered.id
    case Refunded(s) => s.accepted.offered.id
    case PreClosed(p) => p.signed.accepted.offered.id
    case Closed(d) => d.temporaryId
  }

  function GetCounterParty(c: Contract): PeerId {
    match c
    case Offered(o) => o.counterParty
    case Rejected(o) => o.counterParty
    case FailedAccept(f) => f.offered.counterParty
    case Accepted(a) => a.offered.counterParty
    case FailedSign(f) => f.accepted.offered.counterParty
    case Signed(s) => s.accepted.offered.counterParty
    case Confirmed(s) => s.accepted.offered.counterParty
    case Refunded(s) => s.accepted.offered.counterParty
    case PreClosed(p) => p.signed.accepted.offered.counterParty
    case Closed(d) => d.counterParty
  }

  /** Records stored under the contract id fixed by offer and accept, not under the offer's id. */
  predicate HasContractId(c: Contract) {
    !(c.Offered? || c.Rejected? || c.FailedAccept?)
  }

  /** The accepted terms, for the records that still carry them. */
  function AcceptedOf(c: Contract): Option<AcceptedContract> {
    match c
    case Accepted(a) => Some(a)
    case FailedSign(f) => Some(f.accepted)
    case Signed(s) => Some(s.accepted)
    case Confirmed(s) => Some(s.accepted)
    case Refunded(s) => Some(s.accepted)
    case PreClosed(p) => Some(p.signed.accepted)
    case _ => None
  }

  function OfferOf(c: Contract): Option<OfferedContract> {
    match c
    case Offered(o) => Some(o)
    case Rejected(o) => Some(o)
    case FailedAccept(f) => Some(f.offered)
    case Closed(_) => None
    case _ => if AcceptedOf(c).Some? then Some(AcceptedOf(c).value.offered) else None
  }

  /** The funding transaction, for the records that still carry it. */
  function FundTxid(c: Contract): Option<Txid> {
    if AcceptedOf(c).Some? then Some(AcceptedOf(c).value.fundTxid) else None
  }

  /** What a record keeps from the one it replaces: offer, counterparty, accepted terms, and when it is
      closed the broadcast transaction and its attestations. */
  predicate TermsKept(before: Contract, next: Contract) {
    && GetTemporaryId(next) == GetTemporaryId(before)
    && GetCounterParty(next) == GetCounterParty(before)
    && (!next.Closed? ==> OfferOf(next) == OfferOf(before))
    && (HasContractId(before) && !next.Closed? ==> AcceptedOf(next) == AcceptedOf(before))
    && (before.PreClosed? && next.Closed? ==>
          next.closed.signedCet == Some(before.preClosed.signedCet) &&
            next.closed.attestations == before.preClosed.attestations)
  }

  /** Signed, or any state a signed contract can reach. */
  predicate SignedOrLater(c: Contract) {
    c.Signed? || c.Confirmed? || c.PreClosed? || c.Closed? || c.Refunded?
  }

  /** The states in which the funding output has been spent or is being spent. */
  predicate Settled(c: Contract) {
    c.PreClosed? || c.Closed? || c.Refunded?
  }

  /** The moves of the contract lifecycle. */
  predicate Edge(a: Contract, b: Contract) {
    match a
    case Offered(_) => b.Accepted? || b.Signed? || b.Rejected? || b.FailedAccept?
    case Accepted(_) => b.Signed? || b.FailedSign?
    case Signed(_) => b.Confirmed?
    case Confirmed(_) => b.PreClosed? || b.Closed? || b.Refunded?
    case PreClosed(_) => b.Closed?
    case _ => false
  }

  predicate Terminal(c: Contract) {
    c.Closed? || c.Refunded? || c.Rejected? || c.FailedAccept? || c.FailedSign?
  }

  /** The value of the `state` column. */
  function StateString(c: Contract): string {
    match c
    case Offered(_) => "offered"
    case Accepted(_) => "accepted"
    case Signed(_) => "signed"
    case Confirmed(_) => "confirmed"
    case PreClosed(_) => "pre_closed"
    case Closed(_) => "closed"
    case Refunded(_) => "refunded"
    case FailedAccept(_) => "failed_accept"
    case FailedSign(_) => "failed_sign"
    case Rejected(_) => "rejected"
  }

  predicate SameVariant(a: Contract, b: Contract) {
    match a
    case Offered(_) => b.Offered?
    case Accepted(_) => b.Accepted?
    case Signed(_) => b.Signed?
    case Confirmed(_) => b.Confirmed?
    case PreClosed(_) => b.PreClosed?
    case Closed(_) => b.Closed?
    case Refunded(_) => b.Refunded?
    case FailedAccept(_) => b.FailedAccept?
    case FailedSign(_) => b.FailedSign?
    case Rejected(_) => b.Rejected?
  }

  /** Two records have the same `state` column exactly when they are in the same state. */
  lemma StateStringInjective(a: Contract, b: Contract)
    ensures StateString(a) == StateString(b) <==> SameVariant(a, b)
  {
    // The strings differ in length or in their first, third or last character.
    var s, t := StateString(a), StateString(b);
    if s == t {
      assert |s| == |t| && s[0] == t[0] && s[2] == t[2] && s[|s| - 1] == t[|t| - 1];
    }
  }
}
