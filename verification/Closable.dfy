/** Which contract info, if any, the attestations collected so far allow a contract to be closed with. */
module Closable {
  import opened Base
  import opened Contracts

  type Attestor = (OracleKey, EventId) -> Option<Attestation>
  type Answer = (nat, Attestation)

  datatype ClosableInfo = ClosableInfo(info: ContractInfo, adaptor: AdaptorInfo, attestations: seq<Answer>)

  /** Asking the oracle of one announcement; an unknown oracle counts as a failed answer. */
  function Ask(oracles: set<OracleKey>, attest: Attestor, a: Announcement): Option<Attestation> {
    if a.oracle in oracles then attest(a.oracle, a.eventId) else None
  }

  /** The successful answers, each with the index of its announcement. */
  function Answers(oracles: set<OracleKey>, attest: Attestor, announcements: seq<Announcement>): seq<Answer> {
    if announcements == [] then []
    else
      var last := |announcements| - 1;
      var a := Ask(oracles, attest, announcements[last]);
      Answers(oracles, attest, announcements[..last]) + if a.Some? then [(last, a.value)] else []
  }

  predicate Qualifies(oracles: set<OracleKey>, attest: Attestor, info: ContractInfo) {
    && |info.announcements| >= info.threshold
    && |Answers(oracles, attest, info.announcements)| >= info.threshold
  }

  /** The first pair of contract info and adaptor info whose info qualifies. */
  function FirstClosable(oracles: set<OracleKey>, attest: Attestor, infos: seq<ContractInfo>,
                         adaptors: seq<AdaptorInfo>): Option<ClosableInfo>
  {
    if infos == [] || adaptors == [] then None
    else if Qualifies(oracles, attest, infos[0]) then
      Some(ClosableInfo(infos[0], adaptors[0], Answers(oracles, attest, infos[0].announcements)))
    else FirstClosable(oracles, attest, infos[1..], adaptors[1..])
  }

  /** The answers are exactly the successful ones, in strictly increasing order of announcement. */
  lemma {:induction false} AnswersExact(oracles: set<OracleKey>, attest: Attestor, announcements: seq<Announcement>)
    ensures var r := Answers(oracles, attest, announcements);
            && (forall i, j :: 0 <= i < j < |r| ==> r[i].0 < r[j].0)
            && (forall p: Answer ::
                  p in r <==> p.0 < |announcements| && Ask(oracles, attest, announcements[p.0]) == Some(p.1))
  {
    if announcements != [] {
      var last := |announcements| - 1;
      AnswersExact(oracles, attest, announcements[..last]);
      var before, r := Answers(oracles, attest, announcements[..last]), Answers(oracles, attest, announcements);
      forall i, j | 0 <= i < j < |r| ensures r[i].0 < r[j].0 {
        assert r[i] in before;
        if j < |before| { assert r[j] == before[j] && r[i] == before[i]; }
      }
      forall p: Answer
        ensures p in r <==> p.0 < |announcements| && Ask(oracles, attest, announcements[p.0]) == Some(p.1)
      {
        var a := Ask(oracles, attest, announcements[last]);
        assert p in r <==> p in before || (a.Some? && p == (last, a.value));
        if p.0 < last { assert announcements[..last][p.0] == announcements[p.0]; }
      }
    }
  }

  /** `found` was taken from index `k`, no earlier index qualifies, and `k` does. */
  ghost predicate ChosenAt(oracles: set<OracleKey>, attest: Attestor, infos: seq<ContractInfo>,
                           adaptors: seq<AdaptorInfo>, found: ClosableInfo, k: int) {
    && 0 <= k < |infos| && k < |adaptors| && Qualifies(oracles, attest, infos[k])
    && found == ClosableInfo(infos[k], adaptors[k], Answers(oracles, attest, infos[k].announcements))
    && forall j :: 0 <= j < k ==> !Qualifies(oracles, attest, infos[j])
  }

  /** The info returned is the first that reaches its threshold, with the adaptor info of its index;
      none is returned exactly when no paired info reaches its threshold. */
  lemma {:induction false} FirstClosableExact(oracles: set<OracleKey>, attest: Attestor, infos: seq<ContractInfo>,
                                              adaptors: seq<AdaptorInfo>)
    ensures var r := FirstClosable(oracles, attest, infos, adaptors);
            && (r.None? <==> forall k :: 0 <= k < |infos| && k < |adaptors| ==> !Qualifies(oracles, attest, infos[k]))
            && (r.Some? ==> exists k :: ChosenAt(oracles, attest, infos, adaptors, r.value, k))
  {
    if infos == [] || adaptors == [] {
    } else if Qualifies(oracles, attest, infos[0]) {
      assert ChosenAt(oracles, attest, infos, adaptors, FirstClosable(oracles, attest, infos, adaptors).value, 0);
    } else {
      FirstClosableExact(oracles, attest, infos[1..], adaptors[1..]);
      var r := FirstClosable(oracles, attest, infos, adaptors);
      if r.Some? {
        var k :| ChosenAt(oracles, attest, infos[1..], adaptors[1..], r.value, k);
        assert infos[k + 1] == infos[1..][k] && adaptors[k + 1] == adaptors[1..][k];
        forall j | 0 <= j < k + 1 ensures !Qualifies(oracles, attest, infos[j]) {
          if j > 0 { assert infos[j] == infos[1..][j - 1]; }
        }
        assert ChosenAt(oracles, attest, infos, adaptors, r.value, k + 1);
      } else {
        forall k | 0 <= k < |infos| && k < |adaptors| ensures !Qualifies(oracles, attest, infos[k]) {
          if k > 0 { assert infos[k] == infos[1..][k - 1]; }
        }
      }
    }
  }

  // The choice, said without the search.

  /** `answers` has one entry per announcement whose oracle is known and answers, in order, with its index. */
  ghost predicate Collected(oracles: set<OracleKey>, attest: Attestor, announcements: seq<Announcement>,
                            answers: seq<Answer>) {
    && Increasing(answers)
    && forall p: Answer :: p in answers <==>
         && p.0 < |announcements| && announcements[p.0].oracle in oracles
         && attest(announcements[p.0].oracle, announcements[p.0].eventId) == Some(p.1)
  }

  predicate Increasing(answers: seq<Answer>) { forall i, j :: 0 <= i < j < |answers| ==> answers[i].0 < answers[j].0 }

  /** The announcements whose oracle is known and answers. */
  function Answered(oracles: set<OracleKey>, attest: Attestor, announcements: seq<Announcement>): set<int> {
    set i | 0 <= i < |announcements| && announcements[i].oracle in oracles
         && attest(announcements[i].oracle, announcements[i].eventId).Some?
  }

  /** `k` is the first info for which enough oracles answer. */
  ghost predicate Chosen(oracles: set<OracleKey>, attest: Attestor, infos: seq<ContractInfo>, k: int) {
    && 0 <= k < |infos|
    && |Answered(oracles, attest, infos[k].announcements)| >= infos[k].threshold
    && forall j :: 0 <= j < k ==> |Answered(oracles, attest, infos[j].announcements)| < infos[j].threshold
  }

  lemma AnswersCollected(oracles: set<OracleKey>, attest: Attestor, announcements: seq<Announcement>)
    ensures Collected(oracles, attest, announcements, Answers(oracles, attest, announcements))
  {
    AnswersExact(oracles, attest, announcements);
  }

  lemma {:induction false} IncreasingUnique(a: seq<Answer>, b: seq<Answer>)
    requires Increasing(a) && Increasing(b) && forall p :: p in a <==> p in b
    ensures a == b
  {
    if a == [] {
      assert forall i :: 0 <= i < |b| ==> b[i] in b;
    } else {
      assert a[0] in b;
      var k, l := |a| - 1, |b| - 1;
      assert a[k] in b && b[l] in a;
      assert a[k] == b[l];
      forall p ensures p in a[..k] <==> p in b[..l] {
        BeforeLast(a, p);
        BeforeLast(b, p);
      }
      IncreasingUnique(a[..k], b[..l]);
      assert a == a[..k] + [a[k]] && b == b[..l] + [b[l]];
    }
  }

  lemma BeforeLast(a: seq<Answer>, p: Answer)
    requires a != [] && Increasing(a)
    ensures p in a[..|a| - 1] <==> p in a && p != a[|a| - 1]
  {
    assert a == a[..|a| - 1] + [a[|a| - 1]];
  }

  lemma {:induction false} IndexCount(a: seq<Answer>)
    requires Increasing(a)
    ensures |set p | p in a :: p.0| == |a|
  {
    if a != [] {
      var k := |a| - 1;
      IndexCount(a[..k]);
      assert a == a[..k] + [a[k]];
      assert (set p | p in a :: p.0) == (set p | p in a[..k] :: p.0) + {a[k].0};
    }
  }

  /** As many entries as announcements that are answered. */
  lemma CollectedCount(oracles: set<OracleKey>, attest: Attestor, announcements: seq<Announcement>,
                       answers: seq<Answer>)
    requires Collected(oracles, attest, announcements, answers)
    ensures |answers| == |Answered(oracles, attest, announcements)|
  {
    IndexCount(answers);
    var indices := set p | p in answers :: p.0;
    forall i ensures i in Answered(oracles, attest, announcements) <==> i in indices {
      if i in Answered(oracles, attest, announcements) {
        assert (i, attest(announcements[i].oracle, announcements[i].eventId).value) in answers;
      }
    }
    assert indices == Answered(oracles, attest, announcements);
  }

  lemma {:induction false} AnswersFit(oracles: set<OracleKey>, attest: Attestor, announcements: seq<Announcement>)
    ensures |Answers(oracles, attest, announcements)| <= |announcements|
  {
    if announcements != [] { AnswersFit(oracles, attest, announcements[..|announcements| - 1]); }
  }

  /** An info qualifies exactly when at least as many announcements as its threshold are answered. */
  lemma QualifiesIff(oracles: set<OracleKey>, attest: Attestor, info: ContractInfo)
    ensures Qualifies(oracles, attest, info) <==> |Answered(oracles, attest, info.announcements)| >= info.threshold
  {
    AnswersCollected(oracles, attest, info.announcements);
    CollectedCount(oracles, attest, info.announcements, Answers(oracles, attest, info.announcements));
    AnswersFit(oracles, attest, info.announcements);
  }

  /** The result is the first info for which enough oracles answer, with the adaptor info of its index and
      exactly their answers. */
  lemma ChosenIsFound(oracles: set<OracleKey>, attest: Attestor, infos: seq<ContractInfo>, adaptors: seq<AdaptorInfo>,
                      k: int, answers: seq<Answer>)
    requires Chosen(oracles, attest, infos, k) && k < |adaptors|
    requires Collected(oracles, attest, infos[k].announcements, answers)
    ensures FirstClosable(oracles, attest, infos, adaptors) == Some(ClosableInfo(infos[k], adaptors[k], answers))
  {
    forall j | 0 <= j < |infos| ensures Qualifies(oracles, attest, infos[j])
      <==> |Answered(oracles, attest, infos[j].announcements)| >= infos[j].threshold
    {
      QualifiesIff(oracles, attest, infos[j]);
    }
    FirstClosableExact(oracles, attest, infos, adaptors);
    assert Qualifies(oracles, attest, infos[k]);
    var found := FirstClosable(oracles, attest, infos, adaptors).value;
    var l :| ChosenAt(oracles, attest, infos, adaptors, found, l);
    assert l == k;
    AnswersCollected(oracles, attest, infos[k].announcements);
    IncreasingUnique(answers, Answers(oracles, attest, infos[k].announcements));
  }

  /** Nothing is found exactly when for no paired info enough oracles answer. */
  lemma NoneFoundIff(oracles: set<OracleKey>, attest: Attestor, infos: seq<ContractInfo>, adaptors: seq<AdaptorInfo>)
    ensures FirstClosable(oracles, attest, infos, adaptors).None?
       <==> forall k :: 0 <= k < |infos| && k < |adaptors| ==>
         |Answered(oracles, attest, infos[k].announcements)| < infos[k].threshold
  {
    forall j | 0 <= j < |infos| ensures Qualifies(oracles, attest, infos[j])
      <==> |Answered(oracles, attest, infos[j].announcements)| >= infos[j].threshold
    {
      QualifiesIff(oracles, attest, infos[j]);
    }
    FirstClosableExact(oracles, attest, infos, adaptors);
  }

  /** What is found was chosen so. */
  lemma FoundIsChosen(oracles: set<OracleKey>, attest: Attestor, infos: seq<ContractInfo>, adaptors: seq<AdaptorInfo>)
      returns (k: int)
    requires FirstClosable(oracles, attest, infos, adaptors).Some?
    ensures Chosen(oracles, attest, infos, k) && k < |adaptors|
    ensures var found := FirstClosable(oracles, attest, infos, adaptors).value;
            && found.info == infos[k] && found.adaptor == adaptors[k]
            && Collected(oracles, attest, infos[k].announcements, found.attestations)
  {
    var found := FirstClosable(oracles, attest, infos, adaptors).value;
    FirstClosableExact(oracles, attest, infos, adaptors);
    k :| ChosenAt(oracles, attest, infos, adaptors, found, k);
    forall j | 0 <= j <= k ensures Qualifies(oracles, attest, infos[j])
      <==> |Answered(oracles, attest, infos[j].announcements)| >= infos[j].threshold
    {
      QualifiesIff(oracles, attest, infos[j]);
    }
    AnswersCollected(oracles, attest, infos[k].announcements);
  }

  /** Every oracle that answered still answers. */
  ghost predicate Extends(oracles: set<OracleKey>, attest: Attestor, oracles': set<OracleKey>, attest': Attestor) {
    oracles <= oracles' && forall o, e :: attest(o, e).Some? ==> attest'(o, e).Some?
  }

  lemma {:induction false} MoreAnswers(oracles: set<OracleKey>, attest: Attestor, oracles': set<OracleKey>,
                                       attest': Attestor, announcements: seq<Announcement>)
    requires Extends(oracles, attest, oracles', attest')
    ensures |Answers(oracles, attest, announcements)| <= |Answers(oracles', attest', announcements)|
  {
    if announcements != [] { MoreAnswers(oracles, attest, oracles', attest', announcements[..|announcements| - 1]); }
  }

  /** More oracles answering never makes a closable contract unclosable. */
  lemma {:induction false} StaysClosable(oracles: set<OracleKey>, attest: Attestor, oracles': set<OracleKey>,
                                         attest': Attestor,
                                         infos: seq<ContractInfo>, adaptors: seq<AdaptorInfo>)
    requires Extends(oracles, attest, oracles', attest')
    requires FirstClosable(oracles, attest, infos, adaptors).Some?
    ensures FirstClosable(oracles', attest', infos, adaptors).Some?
  {
    MoreAnswers(oracles, attest, oracles', attest', infos[0].announcements);
    if !Qualifies(oracles, attest, infos[0]) {
      StaysClosable(oracles, attest, oracles', attest', infos[1..], adaptors[1..]);
    }
  }

  /** Queries the oracles of one contract info and keeps the answers that came back. */
  method CollectAnswers(oracles: set<OracleKey>, attest: Attestor, announcements: seq<Announcement>)
      returns (answers: seq<Answer>)
    ensures answers == Answers(oracles, attest, announcements)
  {
    answers := [];
    for i := 0 to |announcements|
      invariant answers == Answers(oracles, attest, announcements[..i])
    {
      assert announcements[..i + 1][..i] == announcements[..i];
      var a := Ask(oracles, attest, announcements[i]);
      if a.Some? { answers := answers + [(i, a.value)]; }
    }
    assert announcements[..|announcements|] == announcements;
  }

  method GetClosableContractInfo(oracles: Option<set<OracleKey>>, attest: Attestor, infos: seq<ContractInfo>,
                                 adaptors: seq<AdaptorInfo>)
    returns (res: Result<Option<ClosableInfo>>)
    ensures res == if oracles.None? then Err(InvalidParameters)
            else Ok(FirstClosable(oracles.value, attest, infos, adaptors))
  {
    if oracles.None? { return Err(InvalidParameters); }
    var k := 0;
    while k < |infos| && k < |adaptors|
      invariant 0 <= k <= |infos| && k <= |adaptors|
      invariant FirstClosable(oracles.value, attest, infos, adaptors)
                == FirstClosable(oracles.value, attest, infos[k..], adaptors[k..])
    {
      var info := infos[k];
      if |info.announcements| >= info.threshold {
        var answers := CollectAnswers(oracles.value, attest, info.announcements);
        if |answers| >= info.threshold {
          return Ok(Some(ClosableInfo(info, adaptors[k], answers)));
        }
      }
      assert infos[k..][1..] == infos[k + 1..] && adaptors[k..][1..] == adaptors[k + 1..];
      k := k + 1;
    }
    res := Ok(None);
  }
}
