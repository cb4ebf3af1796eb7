/** The stored form of a contract: one prefix byte that names the variant, then the payload. The
    payload codecs are the DLC library's; they enter as parameters. */
module ContractCodec {
  import opened Base
  import opened Contracts

  datatype Payload<!P> = Payload(enc: P -> seq<Byte>, dec: seq<Byte> -> Result<P>)

  ghost predicate RoundTrips<P(!new)>(p: Payload<P>) {
    forall x: P :: p.dec(p.enc(x)) == Ok(x)
  }

  datatype Codec = Codec(
    offered: Payload<OfferedContract>,
    accepted: Payload<AcceptedContract>,
    signed: Payload<SignedContract>,
    preClosed: Payload<PreClosedContract>,
    closed: Payload<ClosedContract>,
    failedAccept: Payload<FailedAcceptContract>,
    failedSign: Payload<FailedSignContract>)
  {
    ghost predicate Sound() {
      && RoundTrips(offered) && RoundTrips(accepted) && RoundTrips(signed) && RoundTrips(preClosed)
      && RoundTrips(closed) && RoundTrips(failedAccept) && RoundTrips(failedSign)
    }
  }

  function Prefix(c: Contract): Byte {
    match c
    case Offered(_) => 1
    case Accepted(_) => 2
    case Signed(_) => 3
    case Confirmed(_) => 4
    case PreClosed(_) => 5
    case Closed(_) => 6
    case FailedAccept(_) => 7
    case FailedSign(_) => 8
    case Refunded(_) => 9
    case Rejected(_) => 10
  }

  function SerializedPayload(codec: Codec, c: Contract): seq<Byte> {
    match c
    case Offered(o) => codec.offered.enc(o)
    case Accepted(a) => codec.accepted.enc(a)
    case Signed(s) => codec.signed.enc(s)
    case Confirmed(s) => codec.signed.enc(s)
    case Refunded(s) => codec.signed.enc(s)
    case FailedAccept(f) => codec.failedAccept.enc(f)
    case FailedSign(f) => codec.failedSign.enc(f)
    case PreClosed(p) => codec.preClosed.enc(p)
    case Closed(d) => codec.closed.enc(d)
    case Rejected(o) => codec.offered.enc(o)
  }

  function Serialize(codec: Codec, c: Contract): seq<Byte> { [Prefix(c)] + SerializedPayload(codec, c) }

  function Wrap<P>(r: Result<P>, f: P -> Contract): Result<Contract> {
    match r
    case Ok(p) => Ok(f(p))
    case Err(_) => Err(StorageError)
  }

  /** Fails on an empty buffer, an unknown prefix, or a payload that its codec refuses. */
  function Deserialize(codec: Codec, buffer: seq<Byte>): Result<Contract> {
    if buffer == [] then Err(StorageError)
    else
      var rest := buffer[1..];
      match buffer[0]
      case 1 => Wrap(codec.offered.dec(rest), o => Offered(o))
      case 2 => Wrap(codec.accepted.dec(rest), a => Accepted(a))
      case 3 => Wrap(codec.signed.dec(rest), s => Signed(s))
      case 4 => Wrap(codec.signed.dec(rest), s => Confirmed(s))
      case 5 => Wrap(codec.preClosed.dec(rest), p => PreClosed(p))
      case 6 => Wrap(codec.closed.dec(rest), d => Closed(d))
      case 7 => Wrap(codec.failedAccept.dec(rest), f => FailedAccept(f))
      case 8 => Wrap(codec.failedSign.dec(rest), f => FailedSign(f))
      case 9 => Wrap(codec.signed.dec(rest), s => Refunded(s))
      case 10 => Wrap(codec.offered.dec(rest), o => Rejected(o))
      case _ => Err(StorageError)
  }

  /** Reading back what was written gives the same variant and payload, even where two variants
      share a payload type. */
  lemma DeserializeSerialize(codec: Codec, c: Contract)
    requires codec.Sound()
    ensures Deserialize(codec, Serialize(codec, c)) == Ok(c)
  {
    assert Serialize(codec, c)[1..] == SerializedPayload(codec, c);
  }

  /** Distinct contracts have distinct stored forms. */
  lemma SerializeInjective(codec: Codec, a: Contract, b: Contract)
    requires codec.Sound()
    ensures Serialize(codec, a) == Serialize(codec, b) <==> a == b
  {
    DeserializeSerialize(codec, a);
    DeserializeSerialize(codec, b);
  }

  /** Whatever decodes carries the prefix of its variant, so a corrupt prefix never passes for
      another variant of the same payload. */
  lemma PrefixDecides(codec: Codec, buffer: seq<Byte>)
    ensures Deserialize(codec, buffer).Ok? ==> buffer != [] && buffer[0] == Prefix(Deserialize(codec, buffer).value)
    ensures buffer == [] || !(1 <= buffer[0] <= 10) ==> Deserialize(codec, buffer) == Err(StorageError)
  {
  }

  /** The buffer as the source fills it: the prefix is pushed, then the payload appended. */
  method SerializeContract(codec: Codec, c: Contract) returns (res: seq<Byte>)
    requires codec.Sound()
    ensures res == Serialize(codec, c) && Deserialize(codec, res) == Ok(c)
  {
    DeserializeSerialize(codec, c);
    var serialized := SerializedPayload(codec, c);
    res := [];
    res := res + [Prefix(c)];
    res := res + serialized;
  }
}
