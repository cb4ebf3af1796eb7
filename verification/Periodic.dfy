/** The periodic check as a whole: what one pass does to every contract, what it reports, and that
    nothing is left for a second pass over an unchanged world. Each check of a contract has a world of
    its own: chain, oracles, clock and store may answer differently from one check to the next. */
module Periodic {
  import opened Base
  import opened Contracts
  import opened ContractStore
  import opened Lifecycle
  import opened CheckLocality
  import opened NodeRuns

  // One contract, looked at alone.

  function Alone(cfg: Config, c: Contract, env: Env): (Node, Verdict) {
    CheckContract(cfg, Node(map[GetId(c) := c], []), c, env)
  }

  function Checked(cfg: Config, c: Contract, env: Env): Contract {
    var s := Alone(cfg, c, env).0.store;
    if GetId(c) in s then s[GetId(c)] else c
  }

  function VerdictOf(cfg: Config, c: Contract, env: Env): Verdict { Alone(cfg, c, env).1 }

  lemma CheckActsAlone(cfg: Config, n: Node, c: Contract, env: Env)
    requires Holds(n.store, c)
    ensures CheckContract(cfg, n, c, env).0.store == n.store[GetId(c) := Checked(cfg, c, env)]
    ensures CheckContract(cfg, n, c, env).1 == VerdictOf(cfg, c, env)
  {
    CheckLocal(cfg, n, Node(map[GetId(c) := c], []), c, env);
  }

  lemma ConfirmedAdvancedIff(cfg: Config, s: SignedContract, env: Env)
    ensures var (c, d) := (Confirmed(s), Checked(cfg, Confirmed(s), env));
            && (VerdictOf(cfg, c, env) == Advanced <==> d != c && !d.Refunded?)
            && (d == c || Edge(c, d))
  {
    var n := Node(map[GetId(Confirmed(s)) := Confirmed(s)], []);
    if s.channelId.None? {
      var found := ClosableOf(cfg, s, env);
      if found.Some? {
        assert CheckContract(cfg, n, Confirmed(s), env) == CheckConfirmed(cfg, n, s, env);
        var cet := cfg.lib.signedCet(s, found.value.info, found.value.adaptor, found.value.attestations);
        if cet.Ok? { var r := CloseContract(cfg, n, s, cet.value, AttestationsOf(found.value.attestations), env); }
      } else {
        assert CheckContract(cfg, n, Confirmed(s), env) == CheckRefund(cfg, n, s, env);
      }
    }
  }

  /** A check reports an advance exactly when it changed the record other than to Refunded. */
  lemma AdvancedIff(cfg: Config, c: Contract, env: Env)
    ensures VerdictOf(cfg, c, env) == Advanced <==> Checked(cfg, c, env) != c && !Checked(cfg, c, env).Refunded?
    ensures Checked(cfg, c, env) == c || Edge(c, Checked(cfg, c, env))
  {
    if c.Confirmed? { ConfirmedAdvancedIff(cfg, c.confirmed, env); }
  }

  /** A closing transaction that a pass finds less than six deep is still so later in the pass. */
  lemma FreshlyPreClosedWaits(cfg: Config, s: SignedContract, env: Env)
    requires Checked(cfg, Confirmed(s), env).PreClosed?
    ensures Checked(cfg, Checked(cfg, Confirmed(s), env), env) == Checked(cfg, Confirmed(s), env)
  {
    var c := Confirmed(s);
    var n := Node(map[GetId(c) := c], []);
    var found := ClosableOf(cfg, s, env);
    if found.Some? {
      var cet := cfg.lib.signedCet(s, found.value.info, found.value.adaptor, found.value.attestations);
      assert cet.Ok?;
      var r := CloseContract(cfg, n, s, cet.value, AttestationsOf(found.value.attestations), env);
      assert Checked(cfg, c, env) == r.1.value;
      var p := r.1.value.preClosed;
      assert p.signedCet == cet.value && (env.confirmations(cet.value).None? ||
        env.confirmations(cet.value).value < NB_CONFIRMATIONS);
    }
  }

  // One loop.

  /** What the loop over `stage` makes of a record. */
  function Through(cfg: Config, stage: Stage, c: Contract, env: Env): Contract {
    if InStage(stage, c) then Checked(cfg, c, env) else c
  }

  predicate Reported(cfg: Config, stage: Stage, c: Contract, env: Env) {
    InStage(stage, c) && VerdictOf(cfg, c, env) == Advanced
  }

  /** The loop would stop with an error at this contract. */
  predicate Nameless(cfg: Config, c: Contract, env: Env) {
    VerdictOf(cfg, c, env) == Advanced && EventIdOf(c).None?
  }

  function Count(entries: seq<Entry>, id: ContractId): nat {
    if entries == [] then 0 else (if entries[0].0 == id then 1 else 0) + Count(entries[1..], id)
  }

  lemma {:induction false} CountConcat(a: seq<Entry>, b: seq<Entry>, id: ContractId)
    ensures Count(a + b, id) == Count(a, id) + Count(b, id)
  {
    if a == [] {
      assert a + b == b;
    } else {
      CountConcat(a[1..], b, id);
      assert (a + b)[1..] == a[1..] + b;
    }
  }

  ghost predicate Distinct(listed: seq<Contract>) {
    forall i, j :: 0 <= i < j < |listed| ==> GetId(listed[i]) != GetId(listed[j])
  }

  /** A loop fails exactly when it advances a contract without an event id. */
  lemma {:induction false} StageOkIff(cfg: Config, n: Node, listed: seq<Contract>, at: ContractId -> Env)
    requires Distinct(listed) && forall c :: c in listed ==> Holds(n.store, c)
    ensures RunStage(cfg, n, listed, at).1.Ok? <==> forall c :: c in listed ==> !Nameless(cfg, c, at(GetId(c)))
    decreases |listed|
  {
    if listed != [] {
      var env := at(GetId(listed[0]));
      CheckActsAlone(cfg, n, listed[0], env);
      if !Nameless(cfg, listed[0], env) {
        TailHeld(cfg, n, listed, env);
        StageOkIff(cfg, CheckContract(cfg, n, listed[0], env).0, listed[1..], at);
        assert forall c :: c in listed <==> c == listed[0] || c in listed[1..];
      }
    }
  }

  /** The contracts not yet visited are as they were listed. */
  lemma TailHeld(cfg: Config, n: Node, listed: seq<Contract>, env: Env)
    requires listed != [] && Distinct(listed) && forall c :: c in listed ==> Holds(n.store, c)
    ensures Distinct(listed[1..])
    ensures forall c :: c in listed[1..] ==> GetId(c) != GetId(listed[0])
    ensures forall c :: c in listed[1..] ==> Holds(CheckContract(cfg, n, listed[0], env).0.store, c)
  {
    CheckActsAlone(cfg, n, listed[0], env);
    forall c | c in listed[1..] ensures GetId(c) != GetId(listed[0]) && Holds(n.store, c) {
      var i :| 0 <= i < |listed[1..]| && listed[1..][i] == c;
      assert listed[i + 1] == c;
    }
  }

  /** A loop that ends well has checked exactly the listed contracts, and lists each advance once. */
  lemma {:induction false} StageEffect(cfg: Config, n: Node, listed: seq<Contract>, at: ContractId -> Env)
    requires Distinct(listed) && forall c :: c in listed ==> Holds(n.store, c)
    requires RunStage(cfg, n, listed, at).1.Ok?
    ensures var (n', r) := RunStage(cfg, n, listed, at);
            && n'.store.Keys == n.store.Keys
            && (forall c :: c in listed ==> GetId(c) in n'.store && n'.store[GetId(c)] == Checked(cfg, c, at(GetId(c))))
            && (forall id :: id in n.store && (forall c :: c in listed ==> GetId(c) != id) ==>
                n'.store[id] == n.store[id])
            && (forall c :: c in listed ==>
                Count(r.value, GetId(c)) == if VerdictOf(cfg, c, at(GetId(c))) == Advanced then 1 else 0)
            && (forall id :: (forall c :: c in listed ==> GetId(c) != id) ==> Count(r.value, id) == 0)
    decreases |listed|
  {
    if listed != [] {
      var c, rest := listed[0], listed[1..];
      var env := at(GetId(c));
      CheckActsAlone(cfg, n, c, env);
      TailHeld(cfg, n, listed, env);
      var n1 := CheckContract(cfg, n, c, env).0;
      StageEffect(cfg, n1, rest, at);
      assert forall d :: d in listed <==> d == c || d in rest;
      var r, q := RunStage(cfg, n, listed, at).1.value, RunStage(cfg, n1, rest, at).1.value;
      assert VerdictOf(cfg, c, env) == Advanced ==> r[1..] == q && r[0].0 == GetId(c);
      assert VerdictOf(cfg, c, env) != Advanced ==> r == q;
      assert Count(q, GetId(c)) == 0;
    }
  }

  /** The same, record by record, for a loop over everything in its stage. */
  lemma StageOnStore(cfg: Config, n: Node, stage: Stage, listed: seq<Contract>, at: ContractId -> Env)
    requires Filed(n.store) && Lists(n.store, stage, listed) && RunStage(cfg, n, listed, at).1.Ok?
    ensures var (n', r) := RunStage(cfg, n, listed, at);
            && n'.store.Keys == n.store.Keys && Filed(n'.store)
            && (forall id :: id in n.store ==> n'.store[id] == Through(cfg, stage, n.store[id], at(id)))
            && (forall id :: Count(r.value, id) ==
                  if id in n.store && Reported(cfg, stage, n.store[id], at(id)) then 1 else 0)
  {
    StageEffect(cfg, n, listed, at);
    var (n', r) := RunStage(cfg, n, listed, at);
    forall id | id in n.store
      ensures n'.store[id] == Through(cfg, stage, n.store[id], at(id))
      ensures Count(r.value, id) == if Reported(cfg, stage, n.store[id], at(id)) then 1 else 0
    {
      var c := n.store[id];
      if InStage(stage, c) { assert c in listed && GetId(c) == id; }
    }
    forall id | id in n'.store ensures GetId(n'.store[id]) == id { CheckKeepsId(cfg, n.store[id], at(id)); }
  }

  lemma CheckKeepsId(cfg: Config, c: Contract, env: Env)
    ensures GetId(Checked(cfg, c, env)) == GetId(c)
  {
    var shape := CheckShape(cfg, Node(map[GetId(c) := c], []), c, env);
  }

  // A whole pass.

  /** What a pass makes of a record: the three loops, one after the other. */
  function Passed(cfg: Config, c: Contract, w: PassWorld): Contract {
    var id := GetId(c);
    var c1 := Through(cfg, SignedStage, c, w.check(SignedStage)(id));
    var c2 := Through(cfg, ConfirmedStage, c1, w.check(ConfirmedStage)(id));
    Through(cfg, PreClosedStage, c2, w.check(PreClosedStage)(id))
  }

  /** In how many loops a record advances. */
  function Advances(cfg: Config, c: Contract, w: PassWorld): nat {
    var id := GetId(c);
    var c1 := Through(cfg, SignedStage, c, w.check(SignedStage)(id));
    var c2 := Through(cfg, ConfirmedStage, c1, w.check(ConfirmedStage)(id));
    (if Reported(cfg, SignedStage, c, w.check(SignedStage)(id)) then 1 else 0)
    + (if Reported(cfg, ConfirmedStage, c1, w.check(ConfirmedStage)(id)) then 1 else 0)
    + (if Reported(cfg, PreClosedStage, c2, w.check(PreClosedStage)(id)) then 1 else 0)
  }

  /** The checks of this contract in the three loops find the same world. */
  ghost predicate FrozenFor(w: PassWorld, id: ContractId) {
    w.check(SignedStage)(id) == w.check(ConfirmedStage)(id) == w.check(PreClosedStage)(id)
  }

  /** With the world unchanged during the pass, a contract advances at most twice, and then stands
      still. */
  lemma PassSettles(cfg: Config, c: Contract, w: PassWorld)
    requires FrozenFor(w, GetId(c))
    ensures Advances(cfg, c, w) <= 2
    ensures var d := Passed(cfg, c, w);
            SignedOrLater(d) && !d.Closed? && !d.Refunded? ==> Checked(cfg, d, w.check(SignedStage)(GetId(c))) == d
    ensures Passed(cfg, Passed(cfg, c, w), w) == Passed(cfg, c, w) && Advances(cfg, Passed(cfg, c, w), w) == 0
  {
    var env := w.check(SignedStage)(GetId(c));
    var c1 := Through(cfg, SignedStage, c, env);
    var c2 := Through(cfg, ConfirmedStage, c1, env);
    var c3 := Through(cfg, PreClosedStage, c2, env);
    CheckKeepsId(cfg, c, env);
    CheckKeepsId(cfg, c1, env);
    CheckKeepsId(cfg, c2, env);
    AdvancedIff(cfg, c, env);
    AdvancedIff(cfg, c1, env);
    AdvancedIff(cfg, c2, env);
    AdvancedIff(cfg, c3, env);
    if c1.Confirmed? && c2.PreClosed? { FreshlyPreClosedWaits(cfg, c1.confirmed, env); }
  }

  /** The store after each loop of a pass that ends well. */
  lemma PassStores(cfg: Config, n: Node, l1: seq<Contract>, l2: seq<Contract>, l3: seq<Contract>, w: PassWorld)
    requires Filed(n.store) && PassLists(cfg, n, l1, l2, l3, w) && RunPass(cfg, n, l1, l2, l3, w).1.Ok?
    ensures var (n1, r1) := RunStage(cfg, n, l1, w.check(SignedStage));
            var (n2, r2) := RunStage(cfg, n1, l2, w.check(ConfirmedStage));
            var (n3, r3) := RunStage(cfg, n2, l3, w.check(PreClosedStage));
            && r1.Ok? && r2.Ok? && r3.Ok? && RunPass(cfg, n, l1, l2, l3, w) == (n3, Ok(r1.value + r2.value + r3.value))
            && Filed(n1.store) && Filed(n2.store) && Filed(n3.store)
            && n.store.Keys == n1.store.Keys == n2.store.Keys == n3.store.Keys
            && Lists(n1.store, ConfirmedStage, l2) && Lists(n2.store, PreClosedStage, l3)
            && (forall id :: id in n.store ==>
                n1.store[id] == Through(cfg, SignedStage, n.store[id], w.check(SignedStage)(id)))
            && (forall id :: id in n.store ==>
                n2.store[id] == Through(cfg, ConfirmedStage, n1.store[id], w.check(ConfirmedStage)(id)))
            && (forall id :: id in n.store ==>
                n3.store[id] == Through(cfg, PreClosedStage, n2.store[id], w.check(PreClosedStage)(id)))
  {
    var n1 := RunStage(cfg, n, l1, w.check(SignedStage)).0;
    var n2 := RunStage(cfg, n1, l2, w.check(ConfirmedStage)).0;
    StageOnStore(cfg, n, SignedStage, l1, w.check(SignedStage));
    StageOnStore(cfg, n1, ConfirmedStage, l2, w.check(ConfirmedStage));
    StageOnStore(cfg, n2, PreClosedStage, l3, w.check(PreClosedStage));
  }

  lemma PassCounts(cfg: Config, n: Node, l1: seq<Contract>, l2: seq<Contract>, l3: seq<Contract>, w: PassWorld,
                   id: ContractId)
    requires Filed(n.store) && PassLists(cfg, n, l1, l2, l3, w) && RunPass(cfg, n, l1, l2, l3, w).1.Ok?
    ensures Count(RunPass(cfg, n, l1, l2, l3, w).1.value, id) ==
              if id in n.store then Advances(cfg, n.store[id], w) else 0
  {
    PassStores(cfg, n, l1, l2, l3, w);
    var (n1, r1) := RunStage(cfg, n, l1, w.check(SignedStage));
    var (n2, r2) := RunStage(cfg, n1, l2, w.check(ConfirmedStage));
    var r3 := RunStage(cfg, n2, l3, w.check(PreClosedStage)).1;
    StageOnStore(cfg, n, SignedStage, l1, w.check(SignedStage));
    StageOnStore(cfg, n1, ConfirmedStage, l2, w.check(ConfirmedStage));
    StageOnStore(cfg, n2, PreClosedStage, l3, w.check(PreClosedStage));
    CountConcat(r1.value + r2.value, r3.value, id);
    CountConcat(r1.value, r2.value, id);
  }

  /** A pass that ends well moves every record as its three loops would move it alone, and its list has
      exactly one entry per advance, at most two for a contract whose world stood still; refunds are
      not listed. */
  lemma PassEffect(cfg: Config, n: Node, l1: seq<Contract>, l2: seq<Contract>, l3: seq<Contract>, w: PassWorld)
    requires Filed(n.store) && PassLists(cfg, n, l1, l2, l3, w) && RunPass(cfg, n, l1, l2, l3, w).1.Ok?
    ensures var (n', r) := RunPass(cfg, n, l1, l2, l3, w);
            && n'.store.Keys == n.store.Keys && Filed(n'.store)
            && (forall id :: id in n.store ==> n'.store[id] == Passed(cfg, n.store[id], w))
            && (forall id :: id in n.store ==> Count(r.value, id) == Advances(cfg, n.store[id], w))
            && (forall id :: id in n.store && FrozenFor(w, id) ==> Count(r.value, id) <= 2)
            && (forall id :: id !in n.store ==> Count(r.value, id) == 0)
  {
    var (n', r) := RunPass(cfg, n, l1, l2, l3, w);
    assert n'.store.Keys == n.store.Keys && Filed(n'.store)
      && forall id :: id in n.store ==> n'.store[id] == Passed(cfg, n.store[id], w) by {
        PassStores(cfg, n, l1, l2, l3, w);
      }
    forall id
      ensures Count(r.value, id) == if id in n.store then Advances(cfg, n.store[id], w) else 0
      ensures id in n.store && FrozenFor(w, id) ==> Advances(cfg, n.store[id], w) <= 2
    {
      PassCounts(cfg, n, l1, l2, l3, w, id);
      if id in n.store && FrozenFor(w, id) { PassSettles(cfg, n.store[id], w); }
    }
  }

  /** The event id that an entry should carry: that of the first announcement of the contract's offer. */
  ghost predicate NamedBy(c: Contract, event: EventId) {
    && OfferOf(c).Some?
    && OfferOf(c).value.infos != [] && OfferOf(c).value.infos[0].announcements != []
    && event == OfferOf(c).value.infos[0].announcements[0].eventId
  }

  /** Every entry of a loop names the event of a contract it listed and advanced. */
  lemma {:induction false} StageEntries(cfg: Config, n: Node, listed: seq<Contract>, at: ContractId -> Env, p: Entry)
    requires RunStage(cfg, n, listed, at).1.Ok? && p in RunStage(cfg, n, listed, at).1.value
    ensures exists c :: c in listed && GetId(c) == p.0 && NamedBy(c, p.1)
    decreases |listed|
  {
    var c, env := listed[0], at(GetId(listed[0]));
    var (n1, verdict) := CheckContract(cfg, n, c, env);
    var rest := RunStage(cfg, n1, listed[1..], at).1;
    if rest.Ok? && p in rest.value {
      StageEntries(cfg, n1, listed[1..], at, p);
      var d :| d in listed[1..] && GetId(d) == p.0 && NamedBy(d, p.1);
      assert d in listed;
    } else {
      assert verdict == Advanced && EventIdOf(c).Some? && p == (GetId(c), EventIdOf(c).value);
      assert c in listed;
    }
  }

  lemma OfferKept(cfg: Config, stage: Stage, c: Contract, env: Env)
    ensures var d := Through(cfg, stage, c, env);
            !d.Closed? ==> OfferOf(d) == OfferOf(c)
  {
    var shape := CheckShape(cfg, Node(map[GetId(c) := c], []), c, env);
  }

  /** Every entry of a pass that ends well names a stored contract, with the event id of the first
      announcement of its offer as stored before the pass. */
  lemma EntriesNameEvents(cfg: Config, n: Node, l1: seq<Contract>, l2: seq<Contract>, l3: seq<Contract>, w: PassWorld,
                          p: Entry)
    requires Filed(n.store) && PassLists(cfg, n, l1, l2, l3, w) && RunPass(cfg, n, l1, l2, l3, w).1.Ok?
    requires p in RunPass(cfg, n, l1, l2, l3, w).1.value
    ensures p.0 in n.store && NamedBy(n.store[p.0], p.1)
  {
    PassStores(cfg, n, l1, l2, l3, w);
    var (n1, r1) := RunStage(cfg, n, l1, w.check(SignedStage));
    var (n2, r2) := RunStage(cfg, n1, l2, w.check(ConfirmedStage));
    var id := p.0;
    if p in r1.value {
      StageEntries(cfg, n, l1, w.check(SignedStage), p);
    } else if p in r2.value {
      StageEntries(cfg, n1, l2, w.check(ConfirmedStage), p);
      assert id in n.store;
      OfferKept(cfg, SignedStage, n.store[id], w.check(SignedStage)(id));
    } else {
      StageEntries(cfg, n2, l3, w.check(PreClosedStage), p);
      assert id in n.store;
      OfferKept(cfg, SignedStage, n.store[id], w.check(SignedStage)(id));
      OfferKept(cfg, ConfirmedStage, n1.store[id], w.check(ConfirmedStage)(id));
    }
  }

  lemma {:induction false} NoCountNoEntry(entries: seq<Entry>)
    requires forall id :: Count(entries, id) == 0
    ensures entries == []
  {
    if entries != [] { assert Count(entries, entries[0].0) > 0; }
  }

  /** A loop over contracts that all stand still ends well, changes no record and lists nothing. */
  lemma StillStage(cfg: Config, n: Node, stage: Stage, listed: seq<Contract>, at: ContractId -> Env)
    requires Filed(n.store) && Lists(n.store, stage, listed)
    requires forall id :: id in n.store && InStage(stage, n.store[id]) ==>
             Checked(cfg, n.store[id], at(id)) == n.store[id]
    ensures RunStage(cfg, n, listed, at).0.store == n.store && RunStage(cfg, n, listed, at).1 == Ok([])
  {
    forall c | c in listed
      ensures VerdictOf(cfg, c, at(GetId(c))) != Advanced && Checked(cfg, c, at(GetId(c))) == c
    {
      AdvancedIff(cfg, c, at(GetId(c)));
    }
    StageOkIff(cfg, n, listed, at);
    StageOnStore(cfg, n, stage, listed, at);
    var (n', r) := RunStage(cfg, n, listed, at);
    forall id ensures Count(r.value, id) == 0 { if id in n.store { AdvancedIff(cfg, n.store[id], at(id)); } }
    NoCountNoEntry(r.value);
  }

  lemma StillPass(cfg: Config, n: Node, l1: seq<Contract>, l2: seq<Contract>, l3: seq<Contract>, w: PassWorld)
    requires Filed(n.store) && PassLists(cfg, n, l1, l2, l3, w) && forall stage :: w.list(stage)
    requires forall id, stage :: id in n.store && InStage(stage, n.store[id]) ==>
             Checked(cfg, n.store[id], w.check(stage)(id)) == n.store[id]
    ensures RunPass(cfg, n, l1, l2, l3, w).0.store == n.store && RunPass(cfg, n, l1, l2, l3, w).1 == Ok([])
  {
    assert w.list(SignedStage) && w.list(ConfirmedStage) && w.list(PreClosedStage);
    StillStage(cfg, n, SignedStage, l1, w.check(SignedStage));
    var n1 := RunStage(cfg, n, l1, w.check(SignedStage)).0;
    StillStage(cfg, n1, ConfirmedStage, l2, w.check(ConfirmedStage));
    var n2 := RunStage(cfg, n1, l2, w.check(ConfirmedStage)).0;
    StillStage(cfg, n2, PreClosedStage, l3, w.check(PreClosedStage));
    var none: seq<Entry> := [];
    assert none + none + none == [];
  }

  /** A second pass finds every contract in the world that the first pass found it in, loop after loop. */
  ghost predicate FrozenThrough(w: PassWorld, w': PassWorld) {
    (forall id :: FrozenFor(w, id)) && forall stage, id :: w'.check(stage)(id) == w.check(stage)(id)
  }

  lemma PassedStands(cfg: Config, c: Contract, w: PassWorld, w': PassWorld, stage: Stage)
    requires FrozenThrough(w, w') && InStage(stage, Passed(cfg, c, w))
    ensures Checked(cfg, Passed(cfg, c, w), w'.check(stage)(GetId(c))) == Passed(cfg, c, w)
  {
    assert FrozenFor(w, GetId(c)) && w'.check(stage)(GetId(c)) == w.check(stage)(GetId(c));
    assert w.check(stage)(GetId(c)) == w.check(SignedStage)(GetId(c)) by {
      match stage
      case SignedStage =>
      case ConfirmedStage =>
      case PreClosedStage =>
    }
    PassSettles(cfg, c, w);
  }

  /** With chain, attestations and clock frozen, one pass reaches a fixpoint: after a pass that ends
      well, a second one whose listings answer changes no record and returns the empty list. */
  lemma SecondPassIsStill(cfg: Config, n: Node, l1: seq<Contract>, l2: seq<Contract>, l3: seq<Contract>, w: PassWorld,
                          m1: seq<Contract>, m2: seq<Contract>, m3: seq<Contract>, w': PassWorld)
    requires Filed(n.store) && PassLists(cfg, n, l1, l2, l3, w) && RunPass(cfg, n, l1, l2, l3, w).1.Ok?
    requires FrozenThrough(w, w') && forall stage :: w'.list(stage)
    requires PassLists(cfg, RunPass(cfg, n, l1, l2, l3, w).0, m1, m2, m3, w')
    ensures var n' := RunPass(cfg, n, l1, l2, l3, w).0;
            RunPass(cfg, n', m1, m2, m3, w').0.store == n'.store && RunPass(cfg, n', m1, m2, m3, w').1 == Ok([])
  {
    var n' := RunPass(cfg, n, l1, l2, l3, w).0;
    assert Filed(n'.store) && n'.store.Keys == n.store.Keys
      && forall id :: id in n.store ==> n'.store[id] == Passed(cfg, n.store[id], w) by {
        PassEffect(cfg, n, l1, l2, l3, w);
      }
    forall id, stage | id in n'.store && InStage(stage, n'.store[id])
      ensures Checked(cfg, n'.store[id], w'.check(stage)(id)) == n'.store[id]
    {
      PassedStands(cfg, n.store[id], w, w', stage);
    }
    StillPass(cfg, n', m1, m2, m3, w');
  }

  /** Every contract that the loop would report has an event id. */
  ghost predicate StageNamed(cfg: Config, s: Store, stage: Stage, at: ContractId -> Env) {
    forall id :: id in s && Reported(cfg, stage, s[id], at(id)) ==> EventIdOf(s[id]).Some?
  }

  lemma StageNamedIff(cfg: Config, n: Node, stage: Stage, listed: seq<Contract>, at: ContractId -> Env)
    requires Filed(n.store) && Lists(n.store, stage, listed)
    ensures RunStage(cfg, n, listed, at).1.Ok? <==> StageNamed(cfg, n.store, stage, at)
  {
    StageOkIff(cfg, n, listed, at);
    if forall c :: c in listed ==> !Nameless(cfg, c, at(GetId(c))) {
      forall id | id in n.store && Reported(cfg, stage, n.store[id], at(id)) ensures EventIdOf(n.store[id]).Some? {
        assert n.store[id] in listed;
      }
    }
  }

  predicate NamedInPass(cfg: Config, c: Contract, w: PassWorld) {
    var id := GetId(c);
    var c1 := Through(cfg, SignedStage, c, w.check(SignedStage)(id));
    var c2 := Through(cfg, ConfirmedStage, c1, w.check(ConfirmedStage)(id));
    && (Reported(cfg, SignedStage, c, w.check(SignedStage)(id)) ==> EventIdOf(c).Some?)
    && (Reported(cfg, ConfirmedStage, c1, w.check(ConfirmedStage)(id)) ==> EventIdOf(c1).Some?)
    && (Reported(cfg, PreClosedStage, c2, w.check(PreClosedStage)(id)) ==> EventIdOf(c2).Some?)
  }

  lemma NamedIff(cfg: Config, c: Contract, w: PassWorld)
    ensures NamedInPass(cfg, c, w) <==> (Advances(cfg, c, w) > 0 ==> EventIdOf(c).Some?)
  {
    var (env1, env2) := (w.check(SignedStage)(GetId(c)), w.check(ConfirmedStage)(GetId(c)));
    var c1 := Through(cfg, SignedStage, c, env1);
    AdvancedIff(cfg, c, env1);
    AdvancedIff(cfg, c1, env2);
    EventKept(cfg, c, env1);
    EventKept(cfg, c1, env2);
  }

  /** When a pass ends well: exactly when the three listings answer and no contract that advances
      lacks an event id. */
  lemma PassOkIff(cfg: Config, n: Node, l1: seq<Contract>, l2: seq<Contract>, l3: seq<Contract>, w: PassWorld)
    requires Filed(n.store) && PassLists(cfg, n, l1, l2, l3, w)
    ensures RunPass(cfg, n, l1, l2, l3, w).1.Ok? <==>
              && w.list(SignedStage) && w.list(ConfirmedStage) && w.list(PreClosedStage)
              && forall id :: id in n.store && Advances(cfg, n.store[id], w) > 0 ==> EventIdOf(n.store[id]).Some?
  {
    if w.list(SignedStage) && w.list(ConfirmedStage) && w.list(PreClosedStage) {
      var (n1, r1) := RunStage(cfg, n, l1, w.check(SignedStage));
      var (n2, r2) := RunStage(cfg, n1, l2, w.check(ConfirmedStage));
      forall id | id in n.store { NamedIff(cfg, n.store[id], w); }
      StageNamedIff(cfg, n, SignedStage, l1, w.check(SignedStage));
      if r1.Ok? {
        StageOnStore(cfg, n, SignedStage, l1, w.check(SignedStage));
        StageNamedIff(cfg, n1, ConfirmedStage, l2, w.check(ConfirmedStage));
        LaterNamed(cfg, n.store, n1.store, SignedStage, w.check(SignedStage), ConfirmedStage, w.check(ConfirmedStage));
        if r2.Ok? {
          StageOnStore(cfg, n1, ConfirmedStage, l2, w.check(ConfirmedStage));
          StageNamedIff(cfg, n2, PreClosedStage, l3, w.check(PreClosedStage));
          LaterNamed(cfg, n1.store, n2.store, ConfirmedStage, w.check(ConfirmedStage), PreClosedStage,
            w.check(PreClosedStage));
        }
      }
    }
  }

  lemma LaterNamed(cfg: Config, s: Store, s': Store, stage: Stage, at: ContractId -> Env, next: Stage,
                   at': ContractId -> Env)
    requires s'.Keys == s.Keys && forall id :: id in s ==> s'[id] == Through(cfg, stage, s[id], at(id))
    ensures StageNamed(cfg, s', next, at') <==>
              forall id :: id in s && Reported(cfg, next, Through(cfg, stage, s[id], at(id)), at'(id)) ==>
                EventIdOf(Through(cfg, stage, s[id], at(id))).Some?
  {
    if StageNamed(cfg, s', next, at') {
      forall id | id in s && Reported(cfg, next, Through(cfg, stage, s[id], at(id)), at'(id))
        ensures EventIdOf(Through(cfg, stage, s[id], at(id))).Some?
      {
        assert s'[id] == Through(cfg, stage, s[id], at(id));
      }
    }
  }

  lemma EventKept(cfg: Config, c: Contract, env: Env)
    ensures var d := Checked(cfg, c, env);
            d.Confirmed? || d.PreClosed? ==> EventIdOf(d) == EventIdOf(c)
  {
    var n := Node(map[GetId(c) := c], []);
    var shape := CheckShape(cfg, n, c, env);
    if c.Confirmed? && c.confirmed.channelId.None? {
      var s := c.confirmed;
      var found := ClosableOf(cfg, s, env);
      if found.Some? {
        var cet := cfg.lib.signedCet(s, found.value.info, found.value.adaptor, found.value.attestations);
        if cet.Ok? { var r := CloseContract(cfg, n, s, cet.value, AttestationsOf(found.value.attestations), env); }
      }
    }
  }

  /** Why that matters: a contract without an event id is advanced, stops the loop, and leaves work
      that the next pass over the same world does. */
  lemma NamelessContractLeavesWork(cfg: Config, n: Node, a: Contract, b: Contract, at: ContractId -> Env)
    requires Holds(n.store, a) && Holds(n.store, b) && GetId(a) != GetId(b)
    requires Nameless(cfg, a, at(GetId(a))) && VerdictOf(cfg, b, at(GetId(b))) == Advanced
    ensures var (n1, r) := RunStage(cfg, n, [a, b], at);
            && r.Err? && Holds(n1.store, b)
            && RunStage(cfg, n1, [b], at).0.store != n1.store
  {
    CheckActsAlone(cfg, n, a, at(GetId(a)));
    var n1 := RunStage(cfg, n, [a, b], at).0;
    CheckActsAlone(cfg, n1, b, at(GetId(b)));
    AdvancedIff(cfg, b, at(GetId(b)));
    assert [b][1..] == [];
  }

  // A pass is a run of single checks, so what holds over all runs holds through every pass.

  type Check = (ContractId, Env)

  /** The checks that a loop makes, up to the one that ends it early. */
  function StageChecks(cfg: Config, n: Node, listed: seq<Contract>, at: ContractId -> Env): seq<Check>
    decreases |listed|
  {
    if listed == [] then []
    else
      var (c, env) := (listed[0], at(GetId(listed[0])));
      var (n1, verdict) := CheckContract(cfg, n, c, env);
      [(GetId(c), env)] + if verdict == Advanced && EventIdOf(c).None? then []
        else StageChecks(cfg, n1, listed[1..], at)
  }

  /** The checks that a pass makes. */
  function PassChecks(cfg: Config, n: Node, l1: seq<Contract>, l2: seq<Contract>, l3: seq<Contract>,
                      w: PassWorld): seq<Check> {
    if !w.list(SignedStage) then []
    else
      var (n1, r1) := RunStage(cfg, n, l1, w.check(SignedStage));
      var checks1 := StageChecks(cfg, n, l1, w.check(SignedStage));
      if r1.Err? || !w.list(ConfirmedStage) then checks1
      else
        var (n2, r2) := RunStage(cfg, n1, l2, w.check(ConfirmedStage));
        var checks2 := checks1 + StageChecks(cfg, n1, l2, w.check(ConfirmedStage));
        if r2.Err? || !w.list(PreClosedStage) then checks2
        else checks2 + StageChecks(cfg, n2, l3, w.check(PreClosedStage))
  }

  /** The manager after these checks, each taken as an event of a run. */
  function CheckAll(cfg: Config, n: Node, checks: seq<Check>): Node
    decreases |checks|
  {
    if checks == [] then n else CheckAll(cfg, Apply(cfg, n, Checks(checks[0].0), checks[0].1), checks[1..])
  }

  lemma {:induction false} CheckAllConcat(cfg: Config, n: Node, a: seq<Check>, b: seq<Check>)
    ensures CheckAll(cfg, n, a + b) == CheckAll(cfg, CheckAll(cfg, n, a), b)
    decreases |a|
  {
    if a == [] {
      assert a + b == b;
    } else {
      CheckAllConcat(cfg, Apply(cfg, n, Checks(a[0].0), a[0].1), a[1..], b);
      assert (a + b)[1..] == a[1..] + b;
    }
  }

  lemma {:induction false} StageIsChecks(cfg: Config, n: Node, listed: seq<Contract>, at: ContractId -> Env)
    requires Distinct(listed) && forall c :: c in listed ==> Holds(n.store, c)
    ensures CheckAll(cfg, n, StageChecks(cfg, n, listed, at)) == RunStage(cfg, n, listed, at).0
    decreases |listed|
  {
    if listed != [] {
      var (c, env) := (listed[0], at(GetId(listed[0])));
      var (n1, verdict) := CheckContract(cfg, n, c, env);
      assert c in listed && n1 == Apply(cfg, n, Checks(GetId(c)), env);
      if verdict == Advanced && EventIdOf(c).None? {
        assert [(GetId(c), env)][1..] == [];
      } else {
        TailHeld(cfg, n, listed, env);
        StageIsChecks(cfg, n1, listed[1..], at);
        assert ([(GetId(c), env)] + StageChecks(cfg, n1, listed[1..], at))[1..]
          == StageChecks(cfg, n1, listed[1..], at);
      }
    }
  }

  /** After these checks, those of one more loop. */
  lemma AndStage(cfg: Config, n: Node, before: seq<Check>, n1: Node, stage: Stage, listed: seq<Contract>,
                 at: ContractId -> Env)
    requires CheckAll(cfg, n, before) == n1 && Lists(n1.store, stage, listed)
    ensures CheckAll(cfg, n, before + StageChecks(cfg, n1, listed, at)) == RunStage(cfg, n1, listed, at).0
  {
    StageIsChecks(cfg, n1, listed, at);
    CheckAllConcat(cfg, n, before, StageChecks(cfg, n1, listed, at));
  }

  lemma PassIsChecks(cfg: Config, n: Node, l1: seq<Contract>, l2: seq<Contract>, l3: seq<Contract>, w: PassWorld)
    requires Filed(n.store) && PassLists(cfg, n, l1, l2, l3, w)
    ensures CheckAll(cfg, n, PassChecks(cfg, n, l1, l2, l3, w)) == RunPass(cfg, n, l1, l2, l3, w).0
  {
    if w.list(SignedStage) {
      var (n1, r1) := RunStage(cfg, n, l1, w.check(SignedStage));
      var checks1 := StageChecks(cfg, n, l1, w.check(SignedStage));
      assert [] + checks1 == checks1;
      AndStage(cfg, n, [], n, SignedStage, l1, w.check(SignedStage));
      if r1.Ok? && w.list(ConfirmedStage) {
        var (n2, r2) := RunStage(cfg, n1, l2, w.check(ConfirmedStage));
        var checks2 := checks1 + StageChecks(cfg, n1, l2, w.check(ConfirmedStage));
        AndStage(cfg, n, checks1, n1, ConfirmedStage, l2, w.check(ConfirmedStage));
        if r2.Ok? && w.list(PreClosedStage) {
          AndStage(cfg, n, checks2, n2, PreClosedStage, l3, w.check(PreClosedStage));
        }
      }
    }
  }

  /** `more` takes these checks as steps of a run; the chain may grow between them. */
  ghost predicate Takes(more: seq<Step>, checks: seq<Check>) {
    |more| == |checks| && forall i :: 0 <= i < |more| ==>
      more[i].event == Checks(checks[i].0) && more[i].env == checks[i].1
  }

  lemma {:induction false} ChecksOnward(cfg: Config, y: System, more: seq<Step>, checks: seq<Check>)
    requires Takes(more, checks)
    ensures Onward(cfg, y, more).node == CheckAll(cfg, y.node, checks)
    decreases |more|
  {
    if more != [] {
      assert Takes(more[1..], checks[1..]);
      ChecksOnward(cfg, Next(cfg, y, more[0]), more[1..], checks[1..]);
    }
  }

  /** A pass taken after any run, whether it ends well or not, continues that run: the depths hold
      after it, and no contract's funding was spent twice under the conditions that hold for runs. */
  lemma PassContinuesRun(cfg: Config, regime: Regime, steps: seq<Step>, l1: seq<Contract>, l2: seq<Contract>,
                         l3: seq<Contract>, w: PassWorld, more: seq<Step>)
    requires cfg.lib.Sound() && Run(cfg, regime, steps)
    requires PassLists(cfg, After(cfg, steps).node, l1, l2, l3, w)
    requires Takes(more, PassChecks(cfg, After(cfg, steps).node, l1, l2, l3, w)) &&
             Continues(cfg, regime, After(cfg, steps), more)
    ensures Run(cfg, regime, steps + more)
    ensures After(cfg, steps + more).node == RunPass(cfg, After(cfg, steps).node, l1, l2, l3, w).0
    ensures Deep(After(cfg, steps + more))
    ensures regime.distinctIds ==>
              forall cid :: NeverSetBack(cfg, steps + more, cid) && SpendsRecorded(cfg, steps + more, cid) ==>
                SpentOnce(After(cfg, steps + more).node, cid)
  {
    RunKeepsFiled(cfg, steps);
    PassIsChecks(cfg, After(cfg, steps).node, l1, l2, l3, w);
    ChecksOnward(cfg, After(cfg, steps), more, PassChecks(cfg, After(cfg, steps).node, l1, l2, l3, w));
    RunContinues(cfg, regime, steps, After(cfg, steps), more);
    StatesHaveDepth(cfg, regime, steps + more);
    if regime.distinctIds {
      forall cid | NeverSetBack(cfg, steps + more, cid) && SpendsRecorded(cfg, steps + more, cid)
        ensures SpentOnce(After(cfg, steps + more).node, cid)
      {
        FundingSpentAtMostOnce(cfg, regime, steps + more, cid);
      }
    }
  }
}
