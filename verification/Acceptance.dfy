/** Independent review: who reviews which criterion (dynamic_runner.py), how a review is
    bound to its scope (assembly.py) and how accepted reviews settle the manual criteria
    of a test report (artifacts.py). */
module Acceptance {
  import opened Prelude
  import opened Evidence
  import opened Assembly

  type Scopes = map<AgentId, seq<CriterionId>>

  // ---------------------------------------------------------------- review scopes

  predicate DisjointScopes(a: seq<CriterionId>, b: seq<CriterionId>) {
    forall i :: 0 <= i < |a| ==> a[i] !in b
  }

  predicate CleanScope(scope: seq<CriterionId>) {
    Distinct(scope) && forall i :: 0 <= i < |scope| ==> scope[i].name != ""
  }

  /** Every manual criterion lies in the scope of exactly one reviewer, and nothing else does. */
  ghost predicate ScopesPartition(scopes: Scopes, manual: seq<CriterionId>) {
    && (forall a :: a in scopes ==> Distinct(scopes[a]))
    && (forall a, b :: a in scopes && b in scopes && a != b ==> DisjointScopes(scopes[a], scopes[b]))
    && (forall c :: c in manual <==> exists a :: a in scopes && c in scopes[a])
  }

  /** When a scope assignment is accepted: a sole reviewer needs none, several reviewers
      need one that partitions the manual criteria. */
  ghost predicate ScopesAccepted(reviewers: set<AgentId>, manual: seq<CriterionId>, supplied: Option<Scopes>) {
    match supplied
    case None => |reviewers| == 1 || manual == []
    case Some(scopes) =>
      && scopes.Keys == reviewers
      && (forall a :: a in scopes ==> CleanScope(scopes[a]))
      && ScopesPartition(scopes, manual)
  }

  lemma DistinctConcat<T>(a: seq<T>, b: seq<T>)
    ensures Distinct(a + b) <==> Distinct(a) && Distinct(b) && forall i :: 0 <= i < |a| ==> a[i] !in b
  {
    if Distinct(a + b) {
      forall i, j | 0 <= i < j < |a| ensures a[i] != a[j] {
        assert (a + b)[i] != (a + b)[j];
      }
      forall i, j | 0 <= i < j < |b| ensures b[i] != b[j] {
        assert (a + b)[|a| + i] != (a + b)[|a| + j];
      }
      forall i, j | 0 <= i < |a| && 0 <= j < |b| ensures a[i] != b[j] {
        assert (a + b)[i] != (a + b)[|a| + j];
      }
    }
  }

  lemma {:induction false} DistinctCount<T>(s: seq<T>)
    requires Distinct(s)
    ensures |Elements(s)| == |s|
  {
    if s == [] {
      assert Elements(s) == {};
    } else {
      var front, last := s[..|s| - 1], s[|s| - 1];
      DistinctCount(front);
      assert Elements(s) == Elements(front) + {last};
    }
  }

  /** `flattened` lists the scopes of the reviewers in `seen`. */
  ghost predicate Flattens(seen: set<AgentId>, given: Scopes, flattened: seq<CriterionId>)
    requires seen <= given.Keys
  {
    && (forall a :: a in seen ==> CleanScope(given[a]))
    && (forall c :: c in flattened <==> exists a :: a in seen && c in given[a])
    && (Distinct(flattened) <==>
          forall a, b :: a in seen && b in seen && a != b ==> DisjointScopes(given[a], given[b]))
  }

  lemma FlattensStep(seen: set<AgentId>, given: Scopes, flattened: seq<CriterionId>, agent: AgentId)
    requires seen <= given.Keys && agent in given && agent !in seen
    requires Flattens(seen, given, flattened) && CleanScope(given[agent])
    ensures Flattens(seen + {agent}, given, flattened + given[agent])
  {
    DistinctConcat(flattened, given[agent]);
    if DisjointScopes(flattened, given[agent]) {
      forall a | a in seen
        ensures DisjointScopes(given[a], given[agent]) && DisjointScopes(given[agent], given[a])
      {
        forall i | 0 <= i < |given[a]| ensures given[a][i] !in given[agent] {
          assert given[a][i] in flattened;
        }
      }
    } else {
      var i :| 0 <= i < |flattened| && flattened[i] in given[agent];
      assert flattened[i] in flattened;
      var a :| a in seen && flattened[i] in given[a];
      assert !DisjointScopes(given[a], given[agent]);
    }
    forall c ensures c in flattened + given[agent] <==> exists a :: a in seen + {agent} && c in given[a] {
      if c in flattened {
        var a :| a in seen && c in given[a];
        assert a in seen + {agent};
      }
    }
  }

  /** The two checks on the whole flattened list decide whether the scopes are accepted. */
  lemma FlattenedDecides(given: Scopes, flattened: seq<CriterionId>, manual: seq<CriterionId>)
    requires Flattens(given.Keys, given, flattened)
    ensures ScopesAccepted(given.Keys, manual, Some(given))
            <==> Distinct(flattened) && Elements(flattened) == Elements(manual)
  {
    if ScopesPartition(given, manual) {
      assert forall c :: c in flattened <==> c in manual;
    }
    if Elements(flattened) == Elements(manual) {
      forall c ensures c in manual <==> c in flattened {
        assert c in Elements(manual) <==> c in Elements(flattened);
      }
    }
  }

  lemma UnsuppliedPartition(order: seq<AgentId>, manual: seq<CriterionId>, scopes: Scopes)
    requires Distinct(order) && Distinct(manual) && scopes.Keys == Elements(order)
    requires forall a :: a in scopes ==> scopes[a] == manual
    requires |order| == 1 || manual == []
    ensures ScopesPartition(scopes, manual)
  {
    if |order| == 1 { assert order[0] in scopes; }
  }

  /** `_resolve_review_scopes`, visiting the reviewers in sorted order. */
  method ResolveReviewScopes(order: seq<AgentId>, manual: seq<CriterionId>, supplied: Option<Scopes>)
    returns (scopes: Option<Scopes>)
    requires Distinct(order)
    ensures scopes.Some? <==> ScopesAccepted(Elements(order), manual, supplied)
    ensures scopes.Some? && Distinct(manual) ==>
              scopes.value.Keys == Elements(order) && ScopesPartition(scopes.value, manual)
    ensures scopes.Some? && supplied.Some? ==> scopes == supplied
    ensures scopes.Some? && supplied.None? ==>
              scopes.value.Keys == Elements(order) && forall a :: a in scopes.value ==> scopes.value[a] == manual
  {
    DistinctCount(order);
    if manual != [] && order == [] {
      assert manual[0] in manual;
      return None;
    }
    if supplied.None? {
      if |order| == 1 {
        scopes := Some(map[order[0] := manual]);
      } else if manual != [] {
        scopes := None;
      } else {
        scopes := Some(map a | a in order :: []);
      }
      if scopes.Some? && Distinct(manual) { UnsuppliedPartition(order, manual, scopes.value); }
      return;
    }
    var given := supplied.value;
    if given.Keys != Elements(order) { return None; }
    scopes := ResolveSupplied(order, manual, given);
  }

  lemma FlattensNothing(given: Scopes)
    ensures Flattens({}, given, [])
  {
  }

  lemma UncleanIsRefused(manual: seq<CriterionId>, given: Scopes, agent: AgentId)
    requires agent in given && !CleanScope(given[agent])
    ensures !ScopesAccepted(given.Keys, manual, Some(given))
  {
    hide CleanScope, ScopesPartition;
  }

  /** The loop of `_resolve_review_scopes` over supplied scopes. */
  method ResolveSupplied(order: seq<AgentId>, manual: seq<CriterionId>, given: Scopes)
    returns (scopes: Option<Scopes>)
    requires given.Keys == Elements(order) && Distinct(order)
    ensures scopes.Some? <==> ScopesAccepted(given.Keys, manual, Some(given))
    ensures scopes.Some? ==> scopes.value == given
  {
    hide Flattens, ScopesAccepted, CleanScope;
    FlattensNothing(given);
    var resolved: Scopes, flattened: seq<CriterionId> := map[], [];
    assert resolved.Keys == {};
    for i := 0 to |order|
      invariant resolved.Keys == Elements(order[..i])
      invariant forall a :: a in resolved ==> resolved[a] == given[a]
      invariant Flattens(resolved.Keys, given, flattened)
    {
      var agent := order[i];
      assert agent in order;
      if !CleanScope(given[agent]) {
        UncleanIsRefused(manual, given, agent);
        return None;
      }
      FlattensStep(resolved.Keys, given, flattened, agent);
      TakeOneMore(order, i);
      assert resolved[agent := given[agent]].Keys == resolved.Keys + {agent};
      resolved := resolved[agent := given[agent]];
      flattened := flattened + given[agent];
    }
    assert order[..|order|] == order;
    FlattenedDecides(given, flattened, manual);
    if !Distinct(flattened) || Elements(flattened) != Elements(manual) { return None; }
    assert resolved == given;
    return Some(resolved);
  }

  lemma TakeOneMore<T>(s: seq<T>, i: nat)
    requires i < |s|
    ensures Elements(s[..i + 1]) == Elements(s[..i]) + {s[i]}
    ensures Distinct(s) ==> s[i] !in s[..i]
  {
    assert s[..i + 1] == s[..i] + [s[i]];
  }

  // -------------------------------------------------------------- review assembly

  /** A reviewer's answer before the controller binds it to a commit and a scope. */
  datatype ReviewBody = ReviewBody(
    verdict: Verdict, termination: Option<ReviewTermination>, assessments: seq<Assessment>, findings: seq<Finding>)

  /** The entry a dictionary keyed by criterion keeps: the last one. */
  function AssessmentFor(assessments: seq<Assessment>, c: CriterionId): (r: Assessment)
    requires c in AssessedIds(assessments)
    ensures r in assessments && r.criterion == c
  {
    var last := assessments[|assessments| - 1];
    if last.criterion == c then last
    else
      assert forall i :: 0 <= i < |assessments| - 1 ==>
        AssessedIds(assessments[..|assessments| - 1])[i] == AssessedIds(assessments)[i];
      AssessmentFor(assessments[..|assessments| - 1], c)
  }

  function InScopeOrder(assessments: seq<Assessment>, scope: seq<CriterionId>): seq<Assessment>
    requires assessments != [] ==> Elements(AssessedIds(assessments)) == Elements(scope)
  {
    if assessments == [] then []
    else
      seq(|scope|, i requires 0 <= i < |scope| =>
        assert scope[i] in Elements(scope);
        assert scope[i] in Elements(AssessedIds(assessments));
        AssessmentFor(assessments, scope[i]))
  }

  function BoundReview(body: ReviewBody, producer: AgentId, iteration: nat, commit: Commit, scope: seq<CriterionId>,
                       assessments: seq<Assessment>): ReviewReport {
    ReviewReport(producer, iteration, commit, body.verdict, body.termination, scope, assessments, body.findings)
  }

  /** `assemble_review_report` for a general reviewer. */
  function AssembleReview(brief: seq<CriterionId>, body: ReviewBody, producer: AgentId, iteration: nat,
                          commit: Commit, scope: seq<CriterionId>): Option<ReviewReport> {
    if !(Elements(scope) <= Elements(brief)) then None
    else if body.assessments != [] && Elements(AssessedIds(body.assessments)) != Elements(scope) then None
    else Some(BoundReview(body, producer, iteration, commit, scope, InScopeOrder(body.assessments, scope)))
  }

  lemma {:induction false} OneAssessmentEach(assessments: seq<Assessment>, i: nat)
    requires i < |assessments| && Distinct(AssessedIds(assessments))
    ensures assessments[i].criterion in AssessedIds(assessments)
    ensures AssessmentFor(assessments, assessments[i].criterion) == assessments[i]
  {
    assert AssessedIds(assessments)[i] == assessments[i].criterion;
    var r := AssessmentFor(assessments, assessments[i].criterion);
    var j :| 0 <= j < |assessments| && assessments[j] == r;
    assert AssessedIds(assessments)[j] == AssessedIds(assessments)[i];
  }

  /** Putting one assessment for each criterion in scope order changes no assessment. */
  lemma ScopeOrderKeepsAssessments(assessments: seq<Assessment>, scope: seq<CriterionId>)
    requires assessments != [] && Distinct(AssessedIds(assessments))
    requires Elements(AssessedIds(assessments)) == Elements(scope)
    ensures var ordered := InScopeOrder(assessments, scope);
            && AssessedIds(ordered) == scope && ordered != []
            && Elements(ordered) == Elements(assessments)
  {
    var ordered := InScopeOrder(assessments, scope);
    forall i | 0 <= i < |scope| ensures ordered[i] in assessments && ordered[i].criterion == scope[i] {
      assert scope[i] in Elements(scope);
      assert scope[i] in Elements(AssessedIds(assessments));
    }
    assert AssessedIds(ordered) == scope;
    assert AssessedIds(assessments)[0] in Elements(scope);
    forall i | 0 <= i < |assessments| ensures assessments[i] in ordered {
      OneAssessmentEach(assessments, i);
      assert AssessedIds(assessments)[i] in Elements(scope);
      var k :| 0 <= k < |scope| && scope[k] == assessments[i].criterion;
      assert ordered[k] == assessments[i];
    }
  }

  /** What the report's validators ask of the assessments, and nothing of their order. */
  lemma SameAssessmentsSameAgreement(r: ReviewReport, s: ReviewReport)
    requires Elements(r.assessments) == Elements(s.assessments) && r.findings == s.findings
    ensures BlockedCriteriaAgree(r) ==> BlockedCriteriaAgree(s)
    ensures SomeBlockedAssessment(r.assessments) ==> SomeBlockedAssessment(s.assessments)
  {
    forall c | BlockedByAssessment(r.assessments, c) ensures BlockedByAssessment(s.assessments, c) {
      var i :| 0 <= i < |r.assessments| && r.assessments[i].blocked && r.assessments[i].criterion == c;
      assert r.assessments[i] in Elements(s.assessments);
    }
    forall i | 0 <= i < |s.assessments| ensures s.assessments[i] in r.assessments {
      assert s.assessments[i] in Elements(r.assessments);
    }
    if SomeBlockedAssessment(r.assessments) {
      var i :| 0 <= i < |r.assessments| && r.assessments[i].blocked;
      assert r.assessments[i] in Elements(s.assessments);
    }
  }

  /** Binding to the controller's scope neither rescues nor spoils an answer: the report is
      assembled and valid exactly when the answer, read against that scope as it was
      written, is valid and the scope stays inside the brief. */
  lemma AssembledReviewValidIff(brief: seq<CriterionId>, body: ReviewBody, producer: AgentId, iteration: nat,
                                commit: Commit, scope: seq<CriterionId>)
    requires Distinct(AssessedIds(body.assessments))
    ensures var report := AssembleReview(brief, body, producer, iteration, commit, scope);
            && (report.Some? && ValidReviewReport(report.value)
                <==> Elements(scope) <= Elements(brief)
                     && ValidReviewReport(BoundReview(body, producer, iteration, commit, scope, body.assessments)))
            && (report.Some? && body.assessments != [] ==> AssessedIds(report.value.assessments) == scope)
  {
    var report := AssembleReview(brief, body, producer, iteration, commit, scope);
    if report.Some? && body.assessments != [] {
      var written := BoundReview(body, producer, iteration, commit, scope, body.assessments);
      ScopeOrderKeepsAssessments(body.assessments, scope);
      SameAssessmentsSameAgreement(written, report.value);
      SameAssessmentsSameAgreement(report.value, written);
    }
  }

  // -------------------------------------------------------- acceptance resolution

  function ReviewedCriteria(reviews: seq<ReviewReport>): set<CriterionId> {
    set i, c | 0 <= i < |reviews| && c in reviews[i].reviewed :: c
  }

  predicate AllAccept(reviews: seq<ReviewReport>) {
    forall i :: 0 <= i < |reviews| ==> reviews[i].verdict.Accept?
  }

  function Settled(manual: seq<CriterionId>, r: CriterionResult): CriterionResult {
    if r.id in manual then r.(status := Passed, detail := ReviewAccepted(r.detail)) else r
  }

  function SettledResults(test: TestReport): (results: seq<CriterionResult>)
    ensures |results| == |test.criteria|
    ensures forall i :: 0 <= i < |results| ==> results[i] == Settled(test.manual, test.criteria[i])
  {
    seq(|test.criteria|, i requires 0 <= i < |test.criteria| => Settled(test.manual, test.criteria[i]))
  }

  predicate ManualPending(test: TestReport) {
    forall i :: 0 <= i < |test.criteria| ==>
      test.criteria[i].id in test.manual ==> test.criteria[i].status.PendingReview?
  }

  predicate Resolvable(test: TestReport, reviews: seq<ReviewReport>) {
    ReviewedCriteria(reviews) == Elements(test.manual) && AllAccept(reviews) && ManualPending(test)
  }

  /** `resolve_acceptance_results`: None where it raises. */
  method ResolveAcceptanceResults(test: TestReport, reviews: seq<ReviewReport>)
    returns (results: Option<seq<CriterionResult>>)
    ensures results.Some? <==> Resolvable(test, reviews)
    ensures results.Some? ==> results.value == SettledResults(test)
  {
    if ReviewedCriteria(reviews) != Elements(test.manual) { return None; }
    if !AllAccept(reviews) { return None; }
    var settled: seq<CriterionResult> := [];
    for i := 0 to |test.criteria|
      invariant |settled| == i
      invariant forall j :: 0 <= j < i ==> settled[j] == Settled(test.manual, test.criteria[j])
      invariant forall j :: 0 <= j < i ==>
                  test.criteria[j].id in test.manual ==> test.criteria[j].status.PendingReview?
    {
      var criterion := test.criteria[i];
      if criterion.id !in test.manual {
        settled := settled + [criterion];
      } else {
        if !criterion.status.PendingReview? { return None; }
        settled := settled + [criterion.(status := Passed, detail := ReviewAccepted(criterion.detail))];
      }
    }
    assert settled == SettledResults(test);
    results := Some(settled);
  }

  /** Exactly one review has `c` in its scope, and it accepts. */
  ghost predicate OneAcceptingReview(reviews: seq<ReviewReport>, c: CriterionId) {
    exists i :: 0 <= i < |reviews| && c in reviews[i].reviewed && reviews[i].verdict.Accept?
                && forall j :: 0 <= j < |reviews| && c in reviews[j].reviewed ==> j == i
  }

  /** A passed criterion with the evidence acceptance promises behind it. */
  ghost predicate Backed(test: TestReport, reviews: seq<ReviewReport>, r: CriterionResult) {
    && r.status.Passed?
    && CoveringCommandsPass(test.commands, r.id)
    && (r.id !in test.manual ==> SomeCommandCovers(test.commands, r.id))
    && (r.id in test.manual ==> OneAcceptingReview(reviews, r.id))
  }

  function Producers(reviews: seq<ReviewReport>): seq<AgentId> {
    seq(|reviews|, i requires 0 <= i < |reviews| => reviews[i].producer)
  }

  /** Each report stems from its own reviewer and covers that reviewer's scope. */
  predicate ReviewsInScope(scopes: Scopes, reviews: seq<ReviewReport>) {
    && Distinct(Producers(reviews))
    && forall i :: 0 <= i < |reviews| ==>
         reviews[i].producer in scopes && reviews[i].reviewed == scopes[reviews[i].producer]
  }

  lemma ReviewedWithinManual(scopes: Scopes, manual: seq<CriterionId>, reviews: seq<ReviewReport>)
    requires ScopesPartition(scopes, manual) && ReviewsInScope(scopes, reviews)
    ensures ReviewedCriteria(reviews) <= Elements(manual)
    ensures Elements(Producers(reviews)) == scopes.Keys ==> ReviewedCriteria(reviews) == Elements(manual)
  {
    if Elements(Producers(reviews)) == scopes.Keys {
      forall c | c in manual ensures c in ReviewedCriteria(reviews) {
        var a :| a in scopes && c in scopes[a];
        assert a in Elements(Producers(reviews));
        var i :| 0 <= i < |reviews| && Producers(reviews)[i] == a;
        assert c in reviews[i].reviewed;
      }
    }
  }

  lemma ManualHasOneReview(scopes: Scopes, manual: seq<CriterionId>, reviews: seq<ReviewReport>, c: CriterionId)
    requires ScopesPartition(scopes, manual) && ReviewsInScope(scopes, reviews) && AllAccept(reviews)
    requires Elements(Producers(reviews)) == scopes.Keys && c in manual
    ensures OneAcceptingReview(reviews, c)
  {
    var a :| a in scopes && c in scopes[a];
    assert a in Elements(Producers(reviews));
    var i :| 0 <= i < |reviews| && Producers(reviews)[i] == a;
    forall j | 0 <= j < |reviews| && c in reviews[j].reviewed ensures j == i {
      var b := reviews[j].producer;
      ghost var disjoint := DisjointScopes(scopes[a], scopes[b]);
      assert Producers(reviews)[j] == b == a;
    }
  }

  /** Acceptance soundness for one pass: when the assembled test report passed and every
      reviewer of a partition of the manual criteria accepted, resolution never raises, and
      what it returns covers the brief with evidence behind every criterion. */
  lemma AcceptedEvidenceBacks(brief: seq<CriterionId>, test: TestReport, scopes: Scopes, reviews: seq<ReviewReport>)
    requires ValidAssignment(brief, test.commands, test.manual) && test.status.Passed?
    requires test == TestReportOf(brief, test.producer, test.iteration, test.inputCommit, test.commands,
                                  test.manual, test.findings)
    requires ScopesPartition(scopes, test.manual) && ReviewsInScope(scopes, reviews)
    requires Elements(Producers(reviews)) == scopes.Keys && AllAccept(reviews)
    ensures Resolvable(test, reviews)
    ensures CriterionIds(SettledResults(test)) == brief
    ensures forall i :: 0 <= i < |brief| ==> Backed(test, reviews, SettledResults(test)[i])
  {
    ReviewedWithinManual(scopes, test.manual, reviews);
    OverallMeaning(test.commands);
    forall i | 0 <= i < |brief|
      ensures test.criteria[i].id == brief[i]
      ensures brief[i] in test.manual ==> test.criteria[i].status.PendingReview?
      ensures Backed(test, reviews, SettledResults(test)[i])
    {
      OutcomeMeaning(test.commands, test.manual, brief[i]);
      assert CoveringCommandsPass(test.commands, brief[i]);
      if brief[i] in test.manual {
        ManualHasOneReview(scopes, test.manual, reviews, brief[i]);
      }
    }
    assert CriterionIds(SettledResults(test)) == brief;
  }
}
