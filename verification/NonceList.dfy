/** The storage API's bounded list of one-use nonces, and the authentication decision made against a
    snapshot of it. Requests are served one after the other. */
module NonceList {
  import opened Base

  const NONCE_VEC_LENGTH := 100

  datatype Header = NoHeader | Opaque | Text(nonce: string)
  datatype Body = Body(nonce: Option<string>, verified: bool)

  /** `query` says over which messages the signature in the query string verifies (None when the query
      string does not parse); `body` is None when the body does not parse. */
  datatype Request = Request(get: bool, path: string, header: Header, query: Option<string -> bool>, body: Option<Body>)

  datatype Decision = Unauthenticated | Accepted | Forbidden | Crashed

  predicate Contains(s: string, part: string) { part <= s || (s != "" && Contains(s[1..], part)) }

  predicate Unprotected(path: string) { path == "/health" || path == "/request_nonce" }

  /** The middleware's decision; unprotected paths and requests without the header pass unchecked. */
  function Decide(r: Request, listed: seq<string>): Decision {
    if Unprotected(r.path) || r.header.NoHeader? then Unauthenticated
    else if r.header.Opaque? then Forbidden
    else
      var n := r.header.nonce;
      if r.get && (Contains(r.path, "/event") || Contains(r.path, "/contract")) then
        if r.query.None? then Crashed
        else if r.query.value(n) && n in listed then Accepted
        else Forbidden
      else if r.body.None? || r.body.value.nonce.None? then Forbidden
      else if r.body.value.verified && n in listed && n == r.body.value.nonce.value then Accepted
      else Forbidden
  }

  /** A request is accepted exactly when it carries a listed nonce and proves knowledge of a key: by a
      signature over the nonce in the query, or over a body that repeats the nonce. */
  lemma AcceptedIff(r: Request, listed: seq<string>)
    ensures Decide(r, listed).Accepted? <==>
              && r.path != "/health" && r.path != "/request_nonce" && r.header.Text? && r.header.nonce in listed
              && if r.get && (Contains(r.path, "/event") || Contains(r.path, "/contract"))
                 then r.query.Some? && r.query.value(r.header.nonce)
                 else r.body.Some? && r.body.value.verified && r.body.value.nonce == Some(r.header.nonce)
  {
  }

  /** The four decisions: unchecked, aborted on a query that does not parse, accepted, forbidden. */
  lemma DecisionsExact(r: Request, listed: seq<string>)
    ensures var (open, byQuery) := (r.path == "/health" || r.path == "/request_nonce" || r.header.NoHeader?,
                                    r.get && (Contains(r.path, "/event") || Contains(r.path, "/contract")));
            var decision := Decide(r, listed);
            && (decision.Unauthenticated? <==> open)
            && (decision.Crashed? <==> !open && r.header.Text? && byQuery && r.query.None?)
            && (decision.Forbidden? <==>
                  && !open
                  && (r.header.Opaque?
                      || (byQuery && r.query.Some? && !(r.query.value(r.header.nonce) && r.header.nonce in listed))
                      || (!byQuery && (r.body.None? || !r.body.value.verified
                                       || r.body.value.nonce != Some(r.header.nonce)
                                       || r.header.nonce !in listed))))
  {
  }

  predicate OccursAt(s: string, part: string, i: int) { 0 <= i <= |s| - |part| && s[i..i + |part|] == part }

  /** A path contains a part exactly when the part occurs somewhere in it. */
  lemma {:induction false} ContainsIff(s: string, part: string)
    ensures Contains(s, part) <==> exists i :: OccursAt(s, part, i)
  {
    if part <= s {
      assert OccursAt(s, part, 0);
    } else if s != "" {
      ContainsIff(s[1..], part);
      if Contains(s[1..], part) {
        var i :| OccursAt(s[1..], part, i);
        assert s[i + 1..i + 1 + |part|] == s[1..][i..i + |part|];
        assert OccursAt(s, part, i + 1);
      }
      if exists i :: OccursAt(s, part, i) {
        var i :| OccursAt(s, part, i);
        assert i != 0;
        assert s[1..][i - 1..i - 1 + |part|] == s[i..i + |part|];
        assert OccursAt(s[1..], part, i - 1);
      }
    }
  }

  function Retain(list: seq<string>, n: string): seq<string> {
    if list == [] then [] else (if list[0] == n then [] else [list[0]]) + Retain(list[1..], n)
  }

  function Trim(list: seq<string>): seq<string> {
    if |list| >= NONCE_VEC_LENGTH then list[|list| - NONCE_VEC_LENGTH + 1..] else list
  }

  /** Once decided, every request with a readable header consumes its nonce, accepted or not. */
  function Consumed(r: Request, list: seq<string>): seq<string> {
    if Decide(r, list).Crashed? then list else if r.header.Text? then Retain(list, r.header.nonce) else list
  }

  predicate Issues(r: Request) { r.get && r.path == "/request_nonce" }

  function Serve(r: Request, random: string, list: seq<string>): seq<string> {
    if Issues(r) then Trim(Consumed(r, list)) + [random] else Consumed(r, list)
  }

  class NonceServer {
    var nonces: seq<string>

    constructor ()
      ensures nonces == []
    {
      nonces := [];
    }

    method RequestNonce(random: string)
      modifies this
      ensures nonces == Trim(old(nonces)) + [random]
    {
      while |nonces| >= NONCE_VEC_LENGTH
        invariant Trim(nonces) == Trim(old(nonces))
        decreases |nonces|
      {
        assert Trim(nonces[1..]) == Trim(nonces);
        nonces := nonces[1..];
      }
      nonces := nonces + [random];
    }

    /** The signature middleware sees the list first, then the nonce is removed, then the route runs. */
    method Handle(r: Request, random: string) returns (decision: Decision)
      modifies this
      ensures nonces == Serve(r, random, old(nonces)) && decision == Decide(r, old(nonces))
    {
      var snapshot := nonces;
      decision := Decide(r, snapshot);
      if decision.Crashed? { return; }
      if r.header.Text? { nonces := Retain(nonces, r.header.nonce); }
      if Issues(r) { RequestNonce(random); }
    }
  }

  // Runs, with the ledger of what was issued and accepted.

  datatype Ledger = Ledger(list: seq<string>, issued: multiset<string>, accepted: multiset<string>)

  function Book(l: Ledger, r: Request, random: string): Ledger {
    Ledger(Serve(r, random, l.list),
      if Issues(r) then l.issued + multiset{random} else l.issued,
      if Decide(r, l.list).Accepted? then l.accepted + multiset{r.header.nonce} else l.accepted)
  }

  function RunServer(steps: seq<(Request, string)>): Ledger {
    if steps == [] then Ledger([], multiset{}, multiset{})
    else Book(RunServer(steps[..|steps| - 1]), steps[|steps| - 1].0, steps[|steps| - 1].1)
  }

  lemma {:induction false} RetainRemovesAll(list: seq<string>, n: string)
    ensures multiset(Retain(list, n)) == multiset(list)[n := 0] && |Retain(list, n)| <= |list|
  {
    if list != [] {
      RetainRemovesAll(list[1..], n);
      assert list == [list[0]] + list[1..];
    }
  }

  /** Accepting a nonce takes at least one copy off the list. */
  lemma ConsumeBalances(r: Request, list: seq<string>, accepted: multiset<string>)
    ensures var accepted' := if Decide(r, list).Accepted? then accepted + multiset{r.header.nonce} else accepted;
            accepted' + multiset(Consumed(r, list)) <= accepted + multiset(list) && |Consumed(r, list)| <= |list|
  {
    if r.header.Text? { RetainRemovesAll(list, r.header.nonce); }
  }

  /** A request that was decided takes every copy of its nonce off the list, and nothing else; so
      presenting the nonce again is refused unless it was issued once more in between. */
  lemma ReplayRefused(first: Request, random: string, again: Request, list: seq<string>)
    requires first.header.Text? && again.header == first.header && !Decide(first, list).Crashed?
    ensures multiset(Consumed(first, list)) == multiset(list)[first.header.nonce := 0]
    ensures Decide(again, Serve(first, random, list)).Accepted? ==> Issues(first) && random == first.header.nonce
  {
    var n := first.header.nonce;
    RetainRemovesAll(list, n);
    assert n !in multiset(Consumed(first, list));
  }

  lemma TrimShrinks(list: seq<string>)
    ensures multiset(Trim(list)) <= multiset(list) && (|list| <= NONCE_VEC_LENGTH ==> |Trim(list)| < NONCE_VEC_LENGTH)
  {
    assert list == list[..|list| - |Trim(list)|] + Trim(list);
  }

  /** In every serial run, for each nonce, accepted requests plus listed copies never exceed the times
      it was issued, and the list never exceeds its bound. */
  lemma {:induction false} NoncesAreOneUse(steps: seq<(Request, string)>)
    ensures var l := RunServer(steps);
            l.accepted + multiset(l.list) <= l.issued && |l.list| <= 100
  {
    if steps != [] {
      NoncesAreOneUse(steps[..|steps| - 1]);
      BookBalances(RunServer(steps[..|steps| - 1]), steps[|steps| - 1].0, steps[|steps| - 1].1);
    }
  }

  lemma BookBalances(l: Ledger, r: Request, random: string)
    requires l.accepted + multiset(l.list) <= l.issued && |l.list| <= NONCE_VEC_LENGTH
    ensures var l' := Book(l, r, random); l'.accepted + multiset(l'.list) <= l'.issued && |l'.list| <= NONCE_VEC_LENGTH
  {
    ConsumeBalances(r, l.list, l.accepted);
    TrimShrinks(Consumed(r, l.list));
    assert multiset(Trim(Consumed(r, l.list)) + [random]) == multiset(Trim(Consumed(r, l.list))) + multiset{random};
  }

  function Run(list: seq<string>, steps: seq<(Request, string)>): seq<string>
    decreases |steps|
  {
    if steps == [] then list else Run(Serve(steps[0].0, steps[0].1, list), steps[1..])
  }

  function IssuesIn(steps: seq<(Request, string)>): nat {
    if steps == [] then 0 else (if Issues(steps[0].0) then 1 else 0) + IssuesIn(steps[1..])
  }

  lemma {:induction false} RetainKeeps(list: seq<string>, n: string, p: nat) returns (q: nat)
    requires p < |list| && list[p] != n
    ensures q < |Retain(list, n)| && Retain(list, n)[q] == list[p] && |Retain(list, n)| - q <= |list| - p
  {
    if p == 0 {
      q := 0;
      RetainRemovesAll(list[1..], n);
    } else {
      var i := RetainKeeps(list[1..], n, p - 1);
      q := if list[0] == n then i else i + 1;
    }
  }

  lemma ConsumedKeeps(list: seq<string>, p: nat, r: Request) returns (q: nat)
    requires p < |list| && r.header != Text(list[p])
    ensures var c := Consumed(r, list); q < |c| && c[q] == list[p] && |c| - q <= |list| - p && |c| <= |list|
  {
    q := p;
    if r.header.Text? && !Decide(r, list).Crashed? {
      q := RetainKeeps(list, r.header.nonce, p);
      RetainRemovesAll(list, r.header.nonce);
    }
  }

  /** Serving one request moves a nonce it does not present towards the front by at most one issue. */
  lemma ServeKeeps(list: seq<string>, p: nat, r: Request, random: string) returns (q: nat)
    requires |list| <= NONCE_VEC_LENGTH && p < |list| && r.header != Text(list[p])
    requires |list| - p + (if Issues(r) then 1 else 0) <= NONCE_VEC_LENGTH
    ensures var after := Serve(r, random, list);
            && |after| <= NONCE_VEC_LENGTH && q < |after| && after[q] == list[p]
            && |after| - q <= |list| - p + if Issues(r) then 1 else 0
  {
    var c := Consumed(r, list);
    q := ConsumedKeeps(list, p, r);
    if Issues(r) { q := q - (|c| - |Trim(c)|); }
  }

  /** A nonce not presented by any request stays listed as long as fewer issues follow than there is
      room behind it. */
  lemma {:induction false} UnusedNonceStays(list: seq<string>, p: nat, steps: seq<(Request, string)>)
    requires |list| <= NONCE_VEC_LENGTH && p < |list|
    requires forall i :: 0 <= i < |steps| ==> steps[i].0.header != Text(list[p])
    requires |list| - 1 - p + IssuesIn(steps) < NONCE_VEC_LENGTH
    ensures list[p] in Run(list, steps)
    decreases |steps|
  {
    if steps != [] {
      var q := ServeKeeps(list, p, steps[0].0, steps[0].1);
      forall i | 0 <= i < |steps[1..]|
        ensures steps[1..][i].0.header != Text(list[p])
      {
        assert steps[1..][i] == steps[i + 1];
      }
      UnusedNonceStays(Serve(steps[0].0, steps[0].1, list), q, steps[1..]);
    }
  }

  /** A freshly issued nonce that is not used is still listed while fewer than 100 are issued after it. */
  lemma FreshNonceStays(list: seq<string>, r: Request, random: string, steps: seq<(Request, string)>)
    requires |list| <= 100 && r.get && r.path == "/request_nonce" && IssuesIn(steps) < 100
    requires forall i :: 0 <= i < |steps| ==> steps[i].0.header != Text(random)
    ensures random in Run(Serve(r, random, list), steps)
  {
    if r.header.Text? { RetainRemovesAll(list, r.header.nonce); }
    var after := Serve(r, random, list);
    UnusedNonceStays(after, |after| - 1, steps);
  }
}
