/** The attestor: events announced with one nonce per digit, stored through an upsert, and attested by
    signing each digit of the outcome with its nonce. Signatures are symbolic. */
module Attestor {
  import opened Base
  import opened Digits
  import opened Rows
  import opened Payout

  type SecretKey = nat
  datatype PublicKey = PublicOf(secret: SecretKey)
  datatype Signature = Schnorr(message: string, key: SecretKey, nonce: SecretKey)

  predicate Verifies(sig: Signature, message: string, key: PublicKey, nonce: PublicKey) {
    sig.message == message && PublicOf(sig.key) == key && PublicOf(sig.nonce) == nonce
  }

  datatype EventDescriptor = DigitDecomposition(nbDigits: nat) | EnumEvent
  datatype OracleAnnouncement = OracleAnnouncement(nonces: seq<PublicKey>, maturity: nat, descriptor: EventDescriptor,
                                                   eventId: string, oracle: PublicKey)
  datatype OracleAttestation = OracleAttestation(oracle: PublicKey, signatures: seq<Signature>, outcomes: seq<string>)

  /** A stored event: secret nonces, announcement, and once attested the attestation and outcome. */
  datatype DbValue = DbValue(
    nonces: Option<seq<SecretKey>>,
    announcement: OracleAnnouncement,
    attestation: Option<OracleAttestation>,
    outcome: Option<nat>,
    uuid: string,
    chain: Option<string>)

  type Events = map<string, DbValue>

  /** `random` is the source of fresh secret nonces. */
  function GenerateNonces(nbDigits: nat, random: nat -> SecretKey): (seq<PublicKey>, seq<SecretKey>) {
    var secrets: seq<SecretKey> := seq(nbDigits, (i: nat) => random(i));
    var publics: seq<PublicKey> := seq(nbDigits, (i: nat) => PublicOf(random(i)));
    (publics, secrets)
  }

  function BuildAnnouncement(key: SecretKey, maturity: nat, eventId: string,
                             random: nat -> SecretKey): (OracleAnnouncement, seq<SecretKey>) {
    var (publics, secrets) := GenerateNonces(NB_DIGITS, random);
    (OracleAnnouncement(publics, maturity, DigitDecomposition(NB_DIGITS), eventId, PublicOf(key)), secrets)
  }

  function DigitStrings(s: string): seq<string> { seq(|s|, i requires 0 <= i < |s| => [s[i]]) }

  function Min(a: nat, b: nat): nat { if a < b then a else b }

  /** Digits and nonces are paired off; the longer list's rest stays unsigned. */
  function BuildAttestation(nonces: seq<SecretKey>, key: SecretKey, outcomes: seq<string>): OracleAttestation {
    var n := Min(|outcomes|, |nonces|);
    OracleAttestation(PublicOf(key), seq(n, i requires 0 <= i < n => Schnorr(outcomes[i], key, nonces[i])), outcomes)
  }

  // The event store.

  /** Which remote calls get through: the lookup and the write of an upsert. */
  datatype Upsert = Upsert(get: bool, put: bool)

  predicate Stored(u: Upsert) { u.get && u.put }

  class StorageApiConn {
    const key: string
    const table: Table<DbValue>
    ghost var events: Events  // what the rows of `key` stand for

    ghost predicate Valid()
      reads this, table
    {
      table.Valid() && forall id :: Find(table.rows, key, id) == if id in events then Some(events[id]) else None
    }

    constructor (key: string, table: Table<DbValue>)
      requires table.Valid() && forall r :: r in table.rows ==> r.key != key
      ensures Valid() && events == map[] && this.key == key && this.table == table
    {
      this.key, this.table, events := key, table, map[];
      new;
      forall id ensures Find(table.rows, key, id) == None {
        if Find(table.rows, key, id).Some? { var r := FoundIsRow(table.rows, key, id); }
      }
    }

    method Get(id: string, up: bool) returns (r: Result<Option<DbValue>>)
      requires Valid()
      ensures r == if !up then Err(StorageError) else Ok(if id in events then Some(events[id]) else None)
    {
      if !up { return Err(StorageError); }
      var rows := table.Get(key, None, Some(id));
      KeepOne(table.rows, key, id);
      r := Ok(if rows == [] then None else Some(rows[0].body));
    }

    /** Looks the event up, then updates or creates it: a map update, or nothing. */
    method Insert(id: string, value: DbValue, calls: Upsert) returns (ok: bool)
      requires Valid()
      modifies this, table
      ensures Valid() && OthersKept(old(table.rows), table.rows, key)
      ensures ok <==> Stored(calls)
      ensures events == if ok then old(events)[id := value] else old(events)
    {
      var event := Get(id, calls.get);
      if event.Err? || !calls.put { return false; }
      if event.value.Some? {
        var f: DbValue -> DbValue := _ => value;
        forall k, i ensures Find(Changed(table.rows, key, id, f), k, i)
                         == if k == key && i == id then Some(value) else Find(table.rows, k, i) {
          ChangedEffect(table.rows, key, id, f, k, i);
        }
        var _ := table.Update(key, id, f);
      } else {
        forall k, i ensures Find(table.rows + [Row(table.nextId, key, id, value)], k, i)
                         == if k == key && i == id then Some(value) else Find(table.rows, k, i) {
          AppendEffect(table.rows, Row(table.nextId, key, id, value), k, i);
        }
        var _ := table.Create(key, id, value);
      }
      events := events[id := value];
      ok := true;
    }

    method GetAll(up: bool) returns (r: Result<seq<(string, DbValue)>>)
      requires Valid()
      ensures !up ==> r == Err(StorageError)
      ensures up ==> r.Ok? && forall p :: p in r.value <==> p.0 in events && events[p.0] == p.1
      ensures up ==> forall i, j :: 0 <= i < j < |r.value| ==> r.value[i].0 != r.value[j].0
    {
      if !up { return Err(StorageError); }
      var rows := table.Get(key, None, None);
      var q: Query<DbValue> := Query(key, None, None);
      forall o ensures o in rows <==> o in table.rows && o.key == key { KeepMembers(table.rows, q, o); }
      var result: seq<(string, DbValue)> := [];
      for i := 0 to |rows|
        invariant |result| == i && forall j :: 0 <= j < i ==> result[j] == (rows[j].uuid, rows[j].body)
      {
        result := result + [(rows[i].uuid, rows[i].body)];
      }
      forall i, j | 0 <= i < j < |result| ensures result[i].0 != result[j].0 { KeepDistinct(table.rows, q, i, j); }
      forall p: (string, DbValue) ensures p in result <==> p.0 in events && events[p.0] == p.1 {
        if p in result {
          var j :| 0 <= j < |result| && result[j] == p;
          assert rows[j] in rows;
          FindRow(table.rows, rows[j]);
        }
        if p.0 in events && events[p.0] == p.1 {
          var o := FoundIsRow(table.rows, key, p.0);
          var j :| 0 <= j < |rows| && rows[j] == o;
          assert result[j] == p;
        }
      }
      r := Ok(result);
    }
  }

  // The two operations, on the map of events.

  function NewEvent(key: SecretKey, uuid: string, maturity: nat, chain: string, random: nat -> SecretKey): DbValue {
    var (announcement, secrets) := BuildAnnouncement(key, maturity, uuid, random);
    DbValue(Some(secrets), announcement, None, None, uuid, Some(chain))
  }

  function Attested(key: SecretKey, event: DbValue, outcome: nat): Option<DbValue> {
    if event.nonces.None? || event.announcement.descriptor.EnumEvent? then None
    else
      var digits := DigitStrings(Formatted(outcome, event.announcement.descriptor.nbDigits));
      Some(event.(outcome := Some(outcome), attestation := Some(BuildAttestation(event.nonces.value, key, digits))))
  }

  datatype Op =
    | CreateEvent(uuid: string, maturity: Option<nat>, chain: string, random: nat -> SecretKey, calls: Upsert)
    | Attest(uuid: string, outcome: nat, get: bool, calls: Upsert)

  function Step(key: SecretKey, m: Events, op: Op): Events {
    match op
    case CreateEvent(uuid, maturity, chain, random, calls) =>
      if maturity.Some? && Stored(calls) then m[uuid := NewEvent(key, uuid, maturity.value, chain, random)] else m
    case Attest(uuid, outcome, get, calls) =>
      if get && Stored(calls) && uuid in m && Attested(key, m[uuid], outcome).Some? then
        m[uuid := Attested(key, m[uuid], outcome).value]
      else m
  }

  class AttestorService {
    const conn: StorageApiConn
    const secretKey: SecretKey

    constructor (conn: StorageApiConn, secretKey: SecretKey)
      ensures this.conn == conn && this.secretKey == secretKey
    {
      this.conn, this.secretKey := conn, secretKey;
    }

    method CreateEvent(uuid: string, maturity: Option<nat>, chain: string, random: nat -> SecretKey, calls: Upsert)
        returns (ok: bool)
      requires conn.Valid()
      modifies conn, conn.table
      ensures conn.Valid() && OthersKept(old(conn.table.rows), conn.table.rows, conn.key)
      ensures conn.events == Step(secretKey, old(conn.events), Op.CreateEvent(uuid, maturity, chain, random, calls))
      ensures ok <==> maturity.Some? && Stored(calls)
    {
      if maturity.None? { return false; }
      ok := conn.Insert(uuid, NewEvent(secretKey, uuid, maturity.value, chain, random), calls);
    }

    /** Answers Ok even when the attested event could not be stored. */
    method Attest(uuid: string, outcome: nat, get: bool, calls: Upsert) returns (ok: bool)
      requires conn.Valid()
      modifies conn, conn.table
      ensures conn.Valid() && OthersKept(old(conn.table.rows), conn.table.rows, conn.key)
      ensures conn.events == Step(secretKey, old(conn.events), Op.Attest(uuid, outcome, get, calls))
      ensures ok <==> get && uuid in old(conn.events) && Attested(secretKey, old(conn.events)[uuid], outcome).Some?
    {
      var res := conn.Get(uuid, get);
      if res.Err? || res.value.None? { return false; }
      var event := res.value.value;
      if event.nonces.None? { return false; }
      if event.announcement.descriptor.EnumEvent? { return false; }
      var outcomes := DigitStrings(Formatted(outcome, event.announcement.descriptor.nbDigits));
      var attestation := BuildAttestation(event.nonces.value, secretKey, outcomes);
      event := event.(outcome := Some(outcome));
      event := event.(attestation := Some(attestation));
      var _ := conn.Insert(uuid, event, calls);
      ok := true;
    }
  }

  // What every stored event satisfies.

  /** As many secret nonces as announced digits, each matching its announced nonce; and an attestation,
      if there is one, signs the leading digits of the stored outcome with the nonces of their
      positions. */
  ghost predicate Sound(key: SecretKey, uuid: string, e: DbValue) {
    && e.uuid == uuid && e.announcement.eventId == uuid && e.announcement.oracle == PublicOf(key)
    && e.announcement.descriptor == DigitDecomposition(NB_DIGITS)
    && e.nonces.Some? && |e.nonces.value| == |e.announcement.nonces| == NB_DIGITS
    && (forall i :: 0 <= i < NB_DIGITS ==> e.announcement.nonces[i] == PublicOf(e.nonces.value[i]))
    && (e.attestation.Some? <==> e.outcome.Some?)
    && (e.outcome.Some? ==>
          var a, digits := e.attestation.value, Formatted(e.outcome.value, NB_DIGITS);
          && a.oracle == PublicOf(key) && a.outcomes == DigitStrings(digits)
          && |a.signatures| == Min(|digits|, NB_DIGITS)
          && forall i :: 0 <= i < |a.signatures| ==>
              Verifies(a.signatures[i], [digits[i]], PublicOf(key), e.announcement.nonces[i]))
  }

  ghost predicate AllSound(key: SecretKey, m: Events) { forall uuid :: uuid in m ==> Sound(key, uuid, m[uuid]) }

  function RunAttestor(key: SecretKey, ops: seq<Op>): Events {
    if ops == [] then map[] else Step(key, RunAttestor(key, ops[..|ops| - 1]), ops[|ops| - 1])
  }

  /** In every run of creations and attestations, with any calls failing and events created again over
      old ones, every stored event is sound. */
  lemma {:induction false} RunsStaySound(key: SecretKey, ops: seq<Op>)
    ensures AllSound(key, RunAttestor(key, ops))
  {
    if ops != [] {
      RunsStaySound(key, ops[..|ops| - 1]);
      StepStaysSound(key, RunAttestor(key, ops[..|ops| - 1]), ops[|ops| - 1]);
    }
  }

  lemma StepStaysSound(key: SecretKey, m: Events, op: Op)
    requires AllSound(key, m)
    ensures AllSound(key, Step(key, m, op))
  {
    if op.CreateEvent? && op.maturity.Some? {
      NewEventIsSound(key, op.uuid, op.maturity.value, op.chain, op.random);
    } else if op.Attest? && op.uuid in m && Attested(key, m[op.uuid], op.outcome).Some? {
      AttestedIsSound(key, op.uuid, m[op.uuid], op.outcome);
    }
  }

  lemma NewEventIsSound(key: SecretKey, uuid: string, maturity: nat, chain: string, random: nat -> SecretKey)
    ensures Sound(key, uuid, NewEvent(key, uuid, maturity, chain, random))
  {
  }

  lemma AttestedIsSound(key: SecretKey, uuid: string, e: DbValue, outcome: nat)
    requires Sound(key, uuid, e)
    ensures Attested(key, e, outcome).Some? && Sound(key, uuid, Attested(key, e, outcome).value)
  {
    var digits := Formatted(outcome, NB_DIGITS);
    var a := Attested(key, e, outcome).value.attestation.value;
    forall i | 0 <= i < |a.signatures|
      ensures Verifies(a.signatures[i], [digits[i]], PublicOf(key), e.announcement.nonces[i])
    {
      assert DigitStrings(digits)[i] == [digits[i]];
    }
  }

  // Where stored events come from.

  predicate Creates(op: Op, uuid: string) {
    op.CreateEvent? && op.uuid == uuid && op.maturity.Some? && Stored(op.calls)
  }

  /** The last creation of the event that got through. */
  function Origin(ops: seq<Op>, uuid: string): (r: Option<nat>)
    ensures r.Some? ==> r.value < |ops| && Creates(ops[r.value], uuid)
  {
    if ops == [] then None
    else if Creates(ops[|ops| - 1], uuid) then Some(|ops| - 1)
    else Origin(ops[..|ops| - 1], uuid)
  }

  /** The outcome of the last attestation that got through since then. */
  function LastOutcome(ops: seq<Op>, uuid: string): Option<nat> {
    if ops == [] || Creates(ops[|ops| - 1], uuid) then None
    else
      var op := ops[|ops| - 1];
      if op.Attest? && op.uuid == uuid && op.get && Stored(op.calls) then Some(op.outcome)
      else LastOutcome(ops[..|ops| - 1], uuid)
  }

  /** The event is for the maturity and chain asked for, with one nonce per digit, each from its own draw. */
  ghost predicate MadeBy(e: DbValue, op: Op)
    requires op.CreateEvent? && op.maturity.Some?
  {
    && e.chain == Some(op.chain) && e.announcement.maturity == op.maturity.value
    && e.nonces.Some? && |e.nonces.value| == |e.announcement.nonces| == NB_DIGITS
    && forall i :: 0 <= i < NB_DIGITS ==>
         e.nonces.value[i] == op.random(i) && e.announcement.nonces[i] == PublicOf(op.random(i))
  }

  /** In every run, an event is stored exactly when a creation of it got through; it is as the last such
      creation made it, and carries the outcome last attested since. */
  lemma {:induction false} StoredIsMade(key: SecretKey, ops: seq<Op>, uuid: string)
    ensures var (m, origin) := (RunAttestor(key, ops), Origin(ops, uuid));
            && (uuid in m <==> origin.Some?)
            && (uuid in m ==> MadeBy(m[uuid], ops[origin.value]) && m[uuid].outcome == LastOutcome(ops, uuid))
  {
    if ops != [] {
      var (before, op) := (ops[..|ops| - 1], ops[|ops| - 1]);
      StoredIsMade(key, before, uuid);
      RunsStaySound(key, before);
      if op.Attest? && op.uuid == uuid && uuid in RunAttestor(key, before) {
        AttestedIsSound(key, uuid, RunAttestor(key, before)[uuid], op.outcome);
      }
    }
  }

  /** No two draws of all creations are the same. */
  ghost predicate DistinctDraws(ops: seq<Op>) {
    forall i, j, a: nat, b: nat ::
      0 <= i < |ops| && 0 <= j < |ops| && ops[i].CreateEvent? && ops[j].CreateEvent? ==>
      a < NB_DIGITS && b < NB_DIGITS && !(i == j && a == b) ==>
      ops[i].random(a) != ops[j].random(b)
  }

  /** Then no nonce is announced twice: neither for two digits of an event nor in two stored events. */
  lemma NoncesNeverRepeat(key: SecretKey, ops: seq<Op>, u: string, v: string, a: nat, b: nat)
    requires DistinctDraws(ops) && a < NB_DIGITS && b < NB_DIGITS && !(u == v && a == b)
    requires u in RunAttestor(key, ops) && v in RunAttestor(key, ops)
    ensures var m := RunAttestor(key, ops);
            && |m[u].announcement.nonces| == |m[v].announcement.nonces| == NB_DIGITS
            && m[u].announcement.nonces[a] != m[v].announcement.nonces[b]
  {
    StoredIsMade(key, ops, u);
    StoredIsMade(key, ops, v);
    var i, j := Origin(ops, u).value, Origin(ops, v).value;
    assert ops[i].random(a) != ops[j].random(b);
  }

  /** A new event announces pairwise different nonces exactly when its draws are pairwise different. */
  lemma NewNoncesDifferIff(key: SecretKey, uuid: string, maturity: nat, chain: string, random: nat -> SecretKey)
    ensures var nonces := NewEvent(key, uuid, maturity, chain, random).announcement.nonces;
            && |nonces| == NB_DIGITS
            && ((forall a: nat, b: nat :: a < b < NB_DIGITS ==> nonces[a] != nonces[b])
                <==> forall a: nat, b: nat :: a < b < NB_DIGITS ==> random(a) != random(b))
  {
    var nonces := NewEvent(key, uuid, maturity, chain, random).announcement.nonces;
    assert forall a: nat :: a < NB_DIGITS ==> nonces[a] == PublicOf(random(a));
    if forall a: nat, b: nat :: a < b < NB_DIGITS ==> nonces[a] != nonces[b] {
      forall a: nat, b: nat | a < b < NB_DIGITS ensures random(a) != random(b) { assert nonces[a] != nonces[b]; }
    }
  }

  /** All digits of a stored attestation are signed exactly when its outcome fits the digits. */
  lemma SignsAllDigitsIff(key: SecretKey, uuid: string, e: DbValue)
    requires Sound(key, uuid, e) && e.attestation.Some?
    ensures |e.attestation.value.signatures| == |e.attestation.value.outcomes| <==> e.outcome.value < Pow(2, NB_DIGITS)
  {
    FormattedFitsIff(e.outcome.value, NB_DIGITS);
    BinaryLength(e.outcome.value);
  }

  function ReadDigits(outcomes: seq<string>): nat
    requires forall i :: 0 <= i < |outcomes| ==> |outcomes[i]| == 1
  {
    ReadBinary(seq(|outcomes|, i requires 0 <= i < |outcomes| => outcomes[i][0]))
  }

  /** What the signed digits of an attestation read as: the stored outcome when it fits, and the outcome
      shifted right by the surplus digits when it does not. */
  lemma SignedDigitsRead(key: SecretKey, uuid: string, e: DbValue)
    requires Sound(key, uuid, e) && e.attestation.Some?
    ensures var a := e.attestation.value;
            && |a.signatures| <= |a.outcomes| && (forall i :: 0 <= i < |a.outcomes| ==> |a.outcomes[i]| == 1)
            && ReadDigits(a.outcomes[..|a.signatures|]) == e.outcome.value / Pow(2, |a.outcomes| - |a.signatures|)
            && (ReadDigits(a.outcomes[..|a.signatures|]) == e.outcome.value <==> e.outcome.value < Pow(2, NB_DIGITS))
  {
    var a, o := e.attestation.value, e.outcome.value;
    var digits := Formatted(o, NB_DIGITS);
    FormattedReadsBack(o, NB_DIGITS);
    SingleDigits(digits, |a.signatures|);
    PrefixReadsShifted(digits, |a.signatures|);
    SignsAllDigitsIff(key, uuid, e);
    ShiftedIff(o, |digits| - |a.signatures|);
    BitLengthBound(o, NB_DIGITS);
    BinaryLength(o);
  }

  lemma SingleDigits(digits: string, k: nat)
    requires k <= |digits|
    ensures forall i :: 0 <= i < |digits| ==> |DigitStrings(digits)[i]| == 1
    ensures ReadDigits(DigitStrings(digits)[..k]) == ReadBinary(digits[..k])
  {
    var outcomes := DigitStrings(digits)[..k];
    assert seq(k, i requires 0 <= i < k => outcomes[i][0]) == digits[..k];
  }

  lemma ShiftedIff(o: nat, surplus: nat)
    ensures o > 0 || surplus == 0 ==> (o / Pow(2, surplus) == o <==> surplus == 0)
  {
    if surplus == 0 {
      assert Pow(2, 0) == 1;
    } else if o > 0 {
      assert Pow(2, surplus) == 2 * Pow(2, surplus - 1);
      ShiftShrinks(o, Pow(2, surplus));
    }
  }

  lemma ShiftShrinks(o: nat, p: nat)
    requires o > 0 && p >= 2
    ensures o / p < o
  {
    var q := o / p;
    assert o == q * p + o % p;
    NextMultiple(q, 1, p);
  }

  /** From the chain to the payout: an outcome that fits the digits, attested after any run and read
      back from the signed digits, pays exactly what the curve gives for the rounded chain value. */
  lemma AttestedValuePaysOut(key: SecretKey, ops: seq<Op>, uuid: string, value: nat, shift: nat, calls: Upsert,
                             accept: nat, offer: nat, totalOutcomes: nat)
    requires uuid in RunAttestor(key, ops) && Stored(calls)
    requires FormattedOutcome(value, shift) < Pow(2, NB_DIGITS)
    requires CurvePieces(accept, offer, totalOutcomes).Ok?
    ensures var m := RunAttestor(key, ops + [Op.Attest(uuid, FormattedOutcome(value, shift), true, calls)]);
            && uuid in m && Sound(key, uuid, m[uuid]) && m[uuid].attestation.Some?
            && (forall i :: 0 <= i < |m[uuid].attestation.value.outcomes| ==>
                |m[uuid].attestation.value.outcomes[i]| == 1)
            && Curve(CurvePieces(accept, offer, totalOutcomes).value)
            && PayoutAt(CurvePieces(accept, offer, totalOutcomes).value, ReadDigits(m[uuid].attestation.value.outcomes))
               == OfferShare(CurvePieces(accept, offer, totalOutcomes).value, value, shift)
  {
    var o := FormattedOutcome(value, shift);
    var ops' := ops + [Op.Attest(uuid, o, true, calls)];
    assert ops'[..|ops|] == ops;
    RunsStaySound(key, ops);
    AttestedIsSound(key, uuid, RunAttestor(key, ops)[uuid], o);
    var e := RunAttestor(key, ops')[uuid];
    SignedDigitsRead(key, uuid, e);
    SignsAllDigitsIff(key, uuid, e);
    var a := e.attestation.value;
    assert a.outcomes[..|a.signatures|] == a.outcomes;
    CurveIff(accept, offer, totalOutcomes);
  }
}
