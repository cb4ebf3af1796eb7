/** The WebSocket provider that reconnects: subscriptions and pending requests are carried over from a
    lost connection and handed to the next one when it opens. */
module WebSocket {

  type Subscription = nat
  type RequestId = nat
  type Payload = string

  /** One connection, as the underlying library keeps it. */
  class InnerProvider {
    var events: seq<Subscription>
    var requests: map<RequestId, Payload>
    var written: seq<Payload>  // what was sent through the socket

    constructor ()
      ensures events == [] && requests == map[] && written == []
    {
      events, requests, written := [], map[], [];
    }
  }

  /** Carried over, and held by the current connection. */
  datatype Conn = Conn(carried: seq<Subscription>, held: seq<Subscription>, carriedReqs: map<RequestId, Payload>,
                       heldReqs: map<RequestId, Payload>)

  function Reversed(s: seq<Subscription>): seq<Subscription> { if s == [] then [] else Reversed(s[1..]) + [s[0]] }

  function Reconnected(c: Conn): Conn { Conn(c.carried + c.held, [], c.carriedReqs + c.heldReqs, map[]) }

  function Opened(c: Conn): Conn { Conn([], c.held + Reversed(c.carried), map[], c.heldReqs + c.carriedReqs) }

  class WebSocketProvider {
    var provider: InnerProvider
    var events: seq<Subscription>
    var requests: map<RequestId, Payload>

    function State(): Conn
      reads this, provider
    {
      Conn(events, provider.events, requests, provider.requests)
    }

    /** The first connection carries nothing over. */
    constructor ()
      ensures State() == Conn([], [], map[], map[]) && fresh(provider)
    {
      events, requests := [], map[];
      provider := new InnerProvider();
    }

    /** Runs a while after a connection was lost. */
    method Create()
      modifies this
      ensures State() == Reconnected(old(State())) && fresh(provider)
    {
      events := events + provider.events;
      requests := requests + provider.requests;
      provider := new InnerProvider();
    }

    /** Pops the carried subscriptions into the new connection, last one first. */
    method HandOverEvents()
      modifies this`events, provider
      ensures events == [] && provider.events == old(provider.events) + Reversed(old(events))
      ensures provider.requests == old(provider.requests) && provider.written == old(provider.written)
    {
      while events != []
        invariant provider.requests == old(provider.requests) && provider.written == old(provider.written)
        invariant provider.events + Reversed(events) == old(provider.events) + Reversed(old(events))
        decreases |events|
      {
        var event := events[|events| - 1];
        ReversedLast(events);
        assert provider.events + ([event] + Reversed(events[..|events| - 1]))
          == provider.events + [event] + Reversed(events[..|events| - 1]);
        events := events[..|events| - 1];
        provider.events := provider.events + [event];
      }
      assert provider.events + [] == provider.events;
    }

    /** Moves each carried request to the new connection and sends it again, once. */
    method HandOverRequests()
      modifies this`requests, provider
      ensures requests == map[] && provider.requests == old(provider.requests) + old(requests)
      ensures provider.events == old(provider.events)
      ensures old(provider.written) <= provider.written &&
              |provider.written| == |old(provider.written)| + |old(requests)|
      ensures forall k :: k in old(requests) ==> old(requests)[k] in provider.written[|old(provider.written)|..]
    {
      ghost var sent := provider.written;
      while requests != map[]
        invariant provider.events == old(provider.events)
        invariant provider.requests + requests == old(provider.requests) + old(requests)
        invariant sent <= provider.written && Resent(old(requests), requests, provider.written[|sent|..])
        decreases |requests|
      {
        var key :| key in requests;
        var payload, rest := requests[key], requests - {key};
        MoveRequest(requests, provider.requests, key);
        ResendOne(old(requests), requests, provider.written[|sent|..], key);
        assert (provider.written + [payload])[|sent|..] == provider.written[|sent|..] + [payload];
        provider.requests := provider.requests[key := payload];
        provider.written := provider.written + [payload];
        requests := rest;
      }
      assert provider.requests + map[] == provider.requests;
    }

    /** The open handler. */
    method OnOpen()
      modifies this, provider
      ensures provider == old(provider) && State() == Opened(old(State()))
      ensures old(provider.written) <= provider.written
      ensures forall k :: k in old(requests) ==> old(requests)[k] in provider.written[|old(provider.written)|..]
    {
      HandOverEvents();
      HandOverRequests();
    }

    method On(s: Subscription)
      modifies provider
      ensures State() == old(State()).(held := old(State()).held + [s])
    {
      provider.events := provider.events + [s];
    }

    method Send(id: RequestId, payload: Payload)
      modifies provider
      ensures State() == old(State()).(heldReqs := old(State()).heldReqs[id := payload])
    {
      provider.requests := provider.requests[id := payload];
      provider.written := provider.written + [payload];
    }
  }

  /** Moving one request keeps the union. */
  lemma MoveRequest(requests: map<RequestId, Payload>, held: map<RequestId, Payload>, key: RequestId)
    requires key in requests
    ensures held[key := requests[key]] + (requests - {key}) == held + requests
  {
    var moved, union := held[key := requests[key]] + (requests - {key}), held + requests;
    assert moved.Keys == union.Keys;
    forall k | k in union ensures moved[k] == union[k] {}
  }

  /** Of `all`, the requests no longer `left` were written, each once. */
  ghost predicate Resent(all: map<RequestId, Payload>, left: map<RequestId, Payload>, written: seq<Payload>) {
    && (forall k :: k in left ==> k in all && left[k] == all[k])
    && |written| + |left| == |all|
    && (forall k :: k in all && k !in left ==> all[k] in written)
  }

  lemma ResendOne(all: map<RequestId, Payload>, left: map<RequestId, Payload>, written: seq<Payload>, key: RequestId)
    requires Resent(all, left, written) && key in left
    ensures Resent(all, left - {key}, written + [left[key]])
  {
    var rest := left - {key};
    assert rest.Keys == left.Keys - {key};
    assert |left.Keys| == |left| && |rest.Keys| == |rest|;
  }

  lemma {:induction false} ReversedLast(s: seq<Subscription>)
    requires s != []
    ensures Reversed(s) == [s[|s| - 1]] + Reversed(s[..|s| - 1])
  {
    if |s| > 1 {
      ReversedLast(s[1..]);
      assert s[1..][..|s| - 2] == s[1..|s| - 1] == s[..|s| - 1][1..];
    } else {
      assert s[1..] == [] && s[..0] == [];
    }
  }

  /** The carried subscriptions are handed over last first. */
  lemma {:induction false} ReversedAt(s: seq<Subscription>, k: nat)
    requires k < |s|
    ensures |Reversed(s)| == |s| && Reversed(s)[k] == s[|s| - 1 - k]
  {
    if |s| > 1 { ReversedAt(s[1..], if k < |s| - 1 then k else 0); }
  }

  /** What came first stays first: older subscriptions are carried before newer ones, and what the opened
      connection holds already stays before what it is handed. */
  lemma EarlierStayFirst(c: Conn)
    ensures c.carried <= Reconnected(c).carried && Reconnected(c).carried[|c.carried|..] == c.held
    ensures c.held <= Opened(c).held
    ensures var handed := Opened(c).held[|c.held|..];
            |handed| == |c.carried| && forall k :: 0 <= k < |handed| ==> handed[k] == c.carried[|c.carried| - 1 - k]
  {
    var handed := Opened(c).held[|c.held|..];
    assert handed == Reversed(c.carried);
    if c.carried != [] { ReversedAt(c.carried, 0); }
    forall k | 0 <= k < |c.carried| ensures handed[k] == c.carried[|c.carried| - 1 - k] {
      ReversedAt(c.carried, k);
    }
  }

  lemma {:induction false} ReversedSame(s: seq<Subscription>)
    ensures multiset(Reversed(s)) == multiset(s)
  {
    if s != [] {
      ReversedSame(s[1..]);
      assert s == [s[0]] + s[1..];
    }
  }

  // Runs.

  datatype Event =
    | Reconnects
    | Opens
    | Registers(s: Subscription)
    | Sends(id: RequestId, payload: Payload)
    | Answered(id: RequestId)

  function Step(c: Conn, e: Event): Conn {
    match e
    case Reconnects => Reconnected(c)
    case Opens => Opened(c)
    case Registers(s) => c.(held := c.held + [s])
    case Sends(id, payload) => c.(heldReqs := c.heldReqs[id := payload])
    case Answered(id) => c.(heldReqs := c.heldReqs - {id})
  }

  function RunConn(events: seq<Event>): Conn {
    if events == [] then Conn([], [], map[], map[]) else Step(RunConn(events[..|events| - 1]), events[|events| - 1])
  }

  function Registered(events: seq<Event>): multiset<Subscription> {
    if events == [] then multiset{}
    else
      var e := events[|events| - 1];
      Registered(events[..|events| - 1]) + if e.Registers? then multiset{e.s} else multiset{}
  }

  /** The requests sent and not answered; an answer reaches only the connection that holds the request. */
  function Pending(events: seq<Event>): map<RequestId, Payload> {
    if events == [] then map[]
    else
      var before, e := events[..|events| - 1], events[|events| - 1];
      match e
      case Sends(id, payload) => Pending(before)[id := payload]
      case Answered(id) => if id in RunConn(before).heldReqs then Pending(before) - {id} else Pending(before)
      case _ => Pending(before)
  }

  /** Request ids are drawn from one counter, so a pending id is never drawn again. */
  ghost predicate DistinctIds(events: seq<Event>) {
    events == [] ||
    (DistinctIds(events[..|events| - 1]) &&
      (events[|events| - 1].Sends? ==> events[|events| - 1].id !in Pending(events[..|events| - 1])))
  }

  /** No step loses or duplicates a subscription. */
  lemma StepConserves(c: Conn, e: Event)
    ensures multiset(Step(c, e).carried) + multiset(Step(c, e).held)
         == multiset(c.carried) + multiset(c.held) + if e.Registers? then multiset{e.s} else multiset{}
  {
    match e
    case Reconnects => assert multiset(c.carried + c.held) == multiset(c.carried) + multiset(c.held);
    case Opens =>
      assert multiset(c.held + Reversed(c.carried)) == multiset(c.held) + multiset(Reversed(c.carried));
      ReversedSame(c.carried);
    case Registers(s) => assert multiset(c.held + [s]) == multiset(c.held) + multiset{s};
    case _ =>
  }

  /** Over every sequence of losses, reconnections, openings and registrations, no subscription is lost
      or duplicated. */
  lemma {:induction false} SubscriptionsConserved(events: seq<Event>)
    ensures var c := RunConn(events); multiset(c.carried) + multiset(c.held) == Registered(events)
  {
    if events != [] {
      SubscriptionsConserved(events[..|events| - 1]);
      StepConserves(RunConn(events[..|events| - 1]), events[|events| - 1]);
    }
  }

  /** Likewise every unanswered request is carried over or held, in exactly one of the two. */
  lemma {:induction false} RequestsConserved(events: seq<Event>)
    requires DistinctIds(events)
    ensures var c := RunConn(events);
            c.carriedReqs.Keys !! c.heldReqs.Keys && c.carriedReqs + c.heldReqs == Pending(events)
  {
    if events != [] {
      RequestsConserved(events[..|events| - 1]);
    }
  }

  /** After an opening nothing waits to be carried over: the new connection holds everything. */
  lemma OpenHandsEverythingOver(events: seq<Event>)
    requires DistinctIds(events) && events != [] && events[|events| - 1].Opens?
    ensures var c := RunConn(events);
            c.carried == [] && c.carriedReqs == map[] && multiset(c.held) == Registered(events) &&
              c.heldReqs == Pending(events)
  {
    SubscriptionsConserved(events);
    RequestsConserved(events);
  }

  lemma SentOnNewConnection(events: seq<Event>, id: RequestId, payload: Payload)
    requires DistinctIds(events)
    ensures var c := RunConn(events + [Reconnects] + [Sends(id, payload)]);
            c.carriedReqs == Pending(events) && c.heldReqs == map[id := payload]
  {
    RequestsConserved(events);
    RunAppends(events, Reconnects);
    RunAppends(events + [Reconnects], Sends(id, payload));
  }

  /** Why ids must not repeat: a request sent on a new connection survives the loss of that connection
      beside all pending ones exactly when its id is not pending; otherwise the older one is lost. */
  lemma ReusedIdLosesIff(events: seq<Event>, id: RequestId, payload: Payload)
    requires DistinctIds(events)
    ensures var c := RunConn(events + [Reconnects] + [Sends(id, payload)] + [Reconnects]);
            && (|c.carriedReqs| == |Pending(events)| + 1 <==> id !in Pending(events))
            && c.carriedReqs == Pending(events)[id := payload]
  {
    SentOnNewConnection(events, id, payload);
    RunAppends(events + [Reconnects] + [Sends(id, payload)], Reconnects);
    ReconnectKeepsIff(RunConn(events + [Reconnects] + [Sends(id, payload)]));
  }

  /** When that connection opens instead, the older one replaces it. */
  lemma ReusedIdOnOpening(events: seq<Event>, id: RequestId, payload: Payload)
    requires DistinctIds(events)
    ensures RunConn(events + [Reconnects] + [Sends(id, payload)] + [Opens]).heldReqs
            == map[id := payload] + Pending(events)
  {
    SentOnNewConnection(events, id, payload);
    RunAppends(events + [Reconnects] + [Sends(id, payload)], Opens);
  }

  lemma RunAppends(events: seq<Event>, e: Event)
    ensures RunConn(events + [e]) == Step(RunConn(events), e)
  {
    assert (events + [e])[..|events|] == events;
  }

  /** A reconnection keeps every request exactly when no id is both carried and held. */
  lemma ReconnectKeepsIff(c: Conn)
    ensures |Reconnected(c).carriedReqs| == |c.carriedReqs| + |c.heldReqs| <==> c.carriedReqs.Keys !! c.heldReqs.Keys
  {
    var a, b := c.carriedReqs.Keys, c.heldReqs.Keys;
    assert Reconnected(c).carriedReqs.Keys == a + b;
    assert |a + b| == |a| + |b| - |a * b|;
    assert a * b == {} ==> a !! b by {
      if x :| x in a && x in b { assert x in a * b; }
    }
  }
}
