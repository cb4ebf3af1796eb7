/** The Stacks nonce service: each call reads the chain's nonce, waits, and then takes the next local
    one. Calls interleave between the read and the rest. */
module StacksNonce {
  import opened Base

  /** The step after the wait. A missing or zero local nonce is replaced by the chain's. */
  function Take(nonce: Option<nat>, chain: nat): nat {
    if nonce.None? || nonce.value == 0 || chain > nonce.value then chain else nonce.value + 1
  }

  class StacksNonceService {
    var nonce: Option<nat>

    constructor ()
      ensures nonce == None
    {
      nonce := None;
    }

    /** The part of a call that runs without interruption once the chain has answered. */
    method Finish(blockChainNonce: nat) returns (r: nat)
      modifies this
      ensures r == Take(old(nonce), blockChainNonce) && nonce == Some(r)
    {
      if nonce.None? || nonce.value == 0 || blockChainNonce > nonce.value {
        nonce := Some(blockChainNonce);
      } else {
        nonce := Some(nonce.value + 1);
      }
      r := nonce.value;
    }
  }

  /** One interleaving: calls read the chain and finish later, in any order. */
  datatype Event = Reads(call: nat, chain: nat) | Finishes(call: nat)

  datatype Taken = Taken(chain: nat, result: nat)

  datatype Service = Service(nonce: Option<nat>, waiting: map<nat, nat>, taken: seq<Taken>)

  function Step(s: Service, e: Event): Service {
    match e
    case Reads(call, chain) => s.(waiting := s.waiting[call := chain])
    case Finishes(call) =>
      if call !in s.waiting then s
      else
        var chain := s.waiting[call];
        var r := Take(s.nonce, chain);
        Service(Some(r), s.waiting - {call}, s.taken + [Taken(chain, r)])
  }

  function RunService(events: seq<Event>): Service {
    if events == [] then Service(None, map[], [])
    else Step(RunService(events[..|events| - 1]), events[|events| - 1])
  }

  ghost predicate Ordered(s: Service) {
    && (s.nonce.None? <==> s.taken == [])
    && (s.taken != [] ==> s.nonce == Some(s.taken[|s.taken| - 1].result))
    && (forall i :: 0 <= i < |s.taken| ==> s.taken[i].result >= s.taken[i].chain)
    && (forall i, j :: 0 <= i < j < |s.taken| && s.taken[i].result > 0 ==> s.taken[i].result < s.taken[j].result)
  }

  /** In every interleaving, from the first nonzero nonce on the results strictly increase in the order
      in which the calls finish, and none is below the chain nonce that its own call read. */
  lemma {:induction false} NoncesIncrease(events: seq<Event>)
    ensures Ordered(RunService(events))
  {
    if events != [] {
      NoncesIncrease(events[..|events| - 1]);
      var s, s' := RunService(events[..|events| - 1]), RunService(events);
      if s'.taken != s.taken {
        var last := |s.taken| - 1;
        forall i | 0 <= i < |s.taken| && s.taken[i].result > 0 ensures s.taken[i].result < s'.taken[|s.taken|].result {
          assert i == last || s.taken[i].result < s.taken[last].result;
        }
      }
    }
  }

  /** The least nonce that is not below the chain's and, once there is a nonzero one, above the last. */
  ghost predicate Least(before: Option<nat>, chain: nat, result: nat) {
    && Fits(before, chain, result)
    && forall m: nat :: Fits(before, chain, m) ==> result <= m
  }

  predicate Fits(before: Option<nat>, chain: nat, m: nat) {
    m >= chain && (before.Some? && before.value > 0 ==> m > before.value)
  }

  lemma TakeIsLeast(nonce: Option<nat>, chain: nat)
    ensures Least(nonce, chain, Take(nonce, chain))
  {
  }

  /** The i-th call to finish got the least nonce after that of the call before. */
  ghost predicate LeastAt(taken: seq<Taken>, i: nat)
    requires i < |taken|
  {
    Least(Before(taken, i), taken[i].chain, taken[i].result)
  }

  /** The result of the call that finished before the i-th, if there is one. */
  function Before(taken: seq<Taken>, i: nat): Option<nat>
    requires i < |taken|
  {
    if i == 0 then None else Some(taken[i - 1].result)
  }

  ghost predicate AllLeast(taken: seq<Taken>) { forall i :: 0 <= i < |taken| ==> LeastAt(taken, i) }

  /** In every interleaving each call gets the least such nonce, so no nonce is skipped. */
  lemma {:induction false} NoncesAreLeast(events: seq<Event>)
    ensures AllLeast(RunService(events).taken)
  {
    if events != [] {
      NoncesAreLeast(events[..|events| - 1]);
      NoncesIncrease(events[..|events| - 1]);
      var s, s' := RunService(events[..|events| - 1]), RunService(events);
      forall i | 0 <= i < |s'.taken| ensures LeastAt(s'.taken, i) {
        if i < |s.taken| {
          assert LeastAt(s.taken, i);
          assert Before(s'.taken, i) == Before(s.taken, i) && s'.taken[i] == s.taken[i];
        } else {
          TakeIsLeast(s.nonce, s'.taken[i].chain);
        }
      }
    }
  }

  /** When a call returns a nonce again: exactly while both the local nonce and the chain are at zero. */
  lemma RepeatsIff(nonce: nat, chain: nat)
    ensures Take(Some(nonce), chain) <= nonce <==> nonce == 0 && chain == 0
  {
  }
}
