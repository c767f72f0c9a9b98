/** From one pass's reports to its iteration record: the decision of dynamic_workflow.py
    and the store's own checks of the record against the same reports (artifact_store.py). */
module Decision {
  import opened Prelude
  import opened Evidence
  import opened Assembly
  import opened Acceptance

  // ---------------------------------------------------------------------- decision

  predicate SomeTestIs(tests: seq<TestReport>, status: CheckStatus) {
    exists i :: 0 <= i < |tests| && tests[i].status == status
  }

  predicate AllTestsPass(tests: seq<TestReport>) {
    forall i :: 0 <= i < |tests| ==> tests[i].status.Passed?
  }

  predicate SomeReviewFails(reviews: seq<ReviewReport>) {
    exists i :: 0 <= i < |reviews| && reviews[i].verdict.Fail?
  }

  /** `_decide`. */
  function Decide(tests: seq<TestReport>, reviews: seq<ReviewReport>, iteration: nat, limit: nat): IterationDecision {
    if SomeTestIs(tests, Blocked) || SomeReviewFails(reviews) then FailIteration
    else if AllTestsPass(tests) && AllAccept(reviews) then AcceptIteration
    else if iteration < limit then ReviseIteration
    else FailIteration
  }

  /** `_unique`: first occurrences, in order. */
  function Unique(reasons: seq<Reason>): (r: seq<Reason>)
    ensures Distinct(r)
    ensures forall x :: x in r <==> x in reasons
  {
    if reasons == [] then []
    else
      var last := reasons[|reasons| - 1];
      var front := Unique(reasons[..|reasons| - 1]);
      assert reasons == reasons[..|reasons| - 1] + [last];
      if last in front then front else front + [last]
  }

  function Analyses(findings: seq<Text>): seq<Reason> {
    seq(|findings|, i requires 0 <= i < |findings| => TesterAnalysis(findings[i]))
  }

  /** What one test report contributes to the blocking reasons. */
  function TestReasons(t: TestReport): seq<Reason> {
    if t.status.Passed? then []
    else
      t.blockers + Analyses(t.findings)
      + if t.blockers == [] && t.findings == [] then [TesterStatus(t.producer, t.status)] else []
  }

  function AllReasons(tests: seq<TestReport>): seq<Reason> {
    if tests == [] then [] else AllReasons(tests[..|tests| - 1]) + TestReasons(tests[|tests| - 1])
  }

  /** `_blocking_reasons`. */
  function BlockingReasons(tests: seq<TestReport>): seq<Reason> {
    Unique(AllReasons(tests))
  }

  function AllFindings(reviews: seq<ReviewReport>): seq<Finding> {
    if reviews == [] then [] else AllFindings(reviews[..|reviews| - 1]) + reviews[|reviews| - 1].findings
  }

  function BlockingOnly(findings: seq<Finding>): (r: seq<Finding>)
    ensures forall f :: f in r <==> f in findings && f.blocking
  {
    if findings == [] then []
    else
      var last := findings[|findings| - 1];
      assert findings == findings[..|findings| - 1] + [last];
      BlockingOnly(findings[..|findings| - 1]) + if last.blocking then [last] else []
  }

  function BlockingFindings(reviews: seq<ReviewReport>): seq<Finding> {
    BlockingOnly(AllFindings(reviews))
  }

  function BlockingIds(reviews: seq<ReviewReport>): seq<FindingId> {
    FindingIds(BlockingFindings(reviews))
  }

  function Descriptions(findings: seq<Finding>): seq<Text> {
    seq(|findings|, i requires 0 <= i < |findings| => findings[i].description)
  }

  /** Three sorted tuples compare equal exactly when their elements agree with multiplicity. */
  datatype Signature = Signature(
    ids: multiset<FindingId>, descriptions: multiset<Text>, reasons: multiset<Reason>)

  function SignatureOf(tests: seq<TestReport>, reviews: seq<ReviewReport>): Signature {
    Signature(multiset(BlockingIds(reviews)), multiset(Descriptions(BlockingFindings(reviews))),
              multiset(BlockingReasons(tests)))
  }

  predicate Correctable(tests: seq<TestReport>, reviews: seq<ReviewReport>) {
    !SomeTestIs(tests, Blocked) && !SomeReviewFails(reviews) && !(AllTestsPass(tests) && AllAccept(reviews))
  }

  predicate Repeats(tests: seq<TestReport>, reviews: seq<ReviewReport>, previous: Option<Signature>) {
    Correctable(tests, reviews) && previous == Some(SignatureOf(tests, reviews))
  }

  /** `_decide` with the repeated-blocker override. */
  function FinalDecision(tests: seq<TestReport>, reviews: seq<ReviewReport>, iteration: nat, limit: nat,
                         previous: Option<Signature>): IterationDecision {
    if Repeats(tests, reviews, previous) then FailIteration else Decide(tests, reviews, iteration, limit)
  }

  function ResolvedIds(previous: seq<FindingId>, current: seq<FindingId>): (r: seq<FindingId>)
    ensures forall x :: x in r <==> x in previous && x !in current
    ensures Distinct(previous) ==> Distinct(r)
  {
    if previous == [] then []
    else
      var front, last := previous[..|previous| - 1], previous[|previous| - 1];
      assert previous == front + [last];
      ResolvedIds(front, current) + if last in current then [] else [last]
  }

  // ------------------------------------------------------------------ one pass's evidence

  /** The parts of a TeamPlan that the evidence checks read. */
  datatype Team = Team(
    single: bool, planDigest: Option<nat>, writers: set<AgentId>, testers: set<AgentId>, reviewers: set<AgentId>)

  function TestProducers(team: Team): set<AgentId> {
    if team.testers == {} then {Controller} else team.testers
  }

  datatype Pass = Pass(
    iteration: nat, input: Commit, output: Commit,
    works: seq<WorkResult>, tests: seq<TestReport>, reviews: seq<ReviewReport>)

  function WorkRefs(sha: Artifact -> nat, works: seq<WorkResult>): seq<Reference> {
    seq(|works|, i requires 0 <= i < |works| => ReferenceTo(sha, WorkArtifact(works[i])))
  }

  function TestRefs(sha: Artifact -> nat, tests: seq<TestReport>): seq<Reference> {
    seq(|tests|, i requires 0 <= i < |tests| => ReferenceTo(sha, TestArtifact(tests[i])))
  }

  function ReviewRefs(sha: Artifact -> nat, reviews: seq<ReviewReport>): seq<Reference> {
    seq(|reviews|, i requires 0 <= i < |reviews| => ReferenceTo(sha, ReviewArtifact(reviews[i])))
  }

  /** What the previous pass left behind for the next decision. */
  datatype Carried = Carried(signature: Option<Signature>, blockingIds: seq<FindingId>)

  /** The IterationRecord that the coordinator builds for a pass. */
  function RecordOf(sha: Artifact -> nat, team: Team, pass: Pass, limit: nat, carried: Carried): IterationRecord {
    IterationRecord(
      pass.iteration, pass.input, pass.output, None, team.planDigest,
      WorkRefs(sha, pass.works), TestRefs(sha, pass.tests), ReviewRefs(sha, pass.reviews),
      FinalDecision(pass.tests, pass.reviews, pass.iteration, limit, carried.signature),
      BlockingIds(pass.reviews), BlockingReasons(pass.tests),
      ResolvedIds(carried.blockingIds, BlockingIds(pass.reviews)))
  }

  // ---------------------------------------------------- the store's checks of a record

  predicate PlanAgrees(team: Team, r: IterationRecord) {
    if r.plan.Some? then !team.single
    else if team.single then r.planDigest.None?
    else r.planDigest.Some? && r.planDigest == team.planDigest
  }

  function WorkProducers(works: seq<WorkResult>): set<AgentId> {
    set i | 0 <= i < |works| :: works[i].producer
  }

  function TesterIds(tests: seq<TestReport>): set<AgentId> {
    set i | 0 <= i < |tests| :: tests[i].producer
  }

  predicate ProducersCover(team: Team, works: seq<WorkResult>, tests: seq<TestReport>, reviews: seq<ReviewReport>) {
    var mayBePartial := !AllTestsPass(tests);
    && WorkProducers(works) == team.writers
    && (TesterIds(tests) == TestProducers(team)
        || (mayBePartial && TesterIds(tests) != {} && TesterIds(tests) <= TestProducers(team)))
    && (Elements(Producers(reviews)) == team.reviewers
        || (mayBePartial && Elements(Producers(reviews)) <= team.reviewers))
  }

  predicate AllOfIteration(n: nat, works: seq<WorkResult>, tests: seq<TestReport>, reviews: seq<ReviewReport>) {
    && (forall i :: 0 <= i < |works| ==> works[i].iteration == n)
    && (forall i :: 0 <= i < |tests| ==> tests[i].iteration == n)
    && (forall i :: 0 <= i < |reviews| ==> reviews[i].iteration == n)
  }

  /** The works lead from one commit to the other, each starting where the previous ended. */
  predicate CommitChain(works: seq<WorkResult>, from: Commit, to: Commit) {
    if works == [] then from == to
    else works[0].inputCommit == from && CommitChain(works[1..], works[0].outputCommit, to)
  }

  predicate TestedAndReviewed(commit: Commit, tests: seq<TestReport>, reviews: seq<ReviewReport>) {
    && (forall i :: 0 <= i < |tests| ==> tests[i].inputCommit == commit)
    && (forall i :: 0 <= i < |reviews| ==> reviews[i].inputCommit == commit)
  }

  predicate SameEvidence(t: TestReport, u: TestReport) {
    t.status == u.status && t.commands == u.commands && t.criteria == u.criteria
    && t.manual == u.manual && t.blockers == u.blockers
  }

  predicate TestsAgree(tests: seq<TestReport>) {
    forall i :: 0 <= i < |tests| ==> SameEvidence(tests[i], tests[0])
  }

  predicate ManualReviewed(tests: seq<TestReport>, reviews: seq<ReviewReport>)
    requires tests != []
  {
    || ReviewedCriteria(reviews) == Elements(tests[0].manual)
    || (!AllTestsPass(tests) && ReviewedCriteria(reviews) <= Elements(tests[0].manual))
  }

  predicate DecisionBacked(decision: IterationDecision, first: TestReport, reviews: seq<ReviewReport>) {
    match decision
    case AcceptIteration => first.status.Passed? && AllAccept(reviews) && Resolvable(first, reviews)
    case ReviseIteration => !SomeReviewFails(reviews) && !(first.status.Passed? && AllAccept(reviews))
    case FailIteration => !(first.status.Passed? && AllAccept(reviews))
  }

  predicate FindingsDistinct(reviews: seq<ReviewReport>) {
    Distinct(FindingIds(AllFindings(reviews)))
  }

  /** The iteration-record branch of `_validate_references`, on the loaded evidence. */
  predicate RecordEvidence(team: Team, r: IterationRecord, works: seq<WorkResult>, tests: seq<TestReport>,
                           reviews: seq<ReviewReport>)
    requires tests != []
  {
    && PlanAgrees(team, r)
    && ProducersCover(team, works, tests, reviews)
    && AllOfIteration(r.iteration, works, tests, reviews)
    && CommitChain(works, r.inputCommit, r.outputCommit)
    && TestedAndReviewed(r.outputCommit, tests, reviews)
    && TestsAgree(tests)
    && ManualReviewed(tests, reviews)
    && FindingsDistinct(reviews)
    && Elements(r.blockingIds) == Elements(BlockingIds(reviews))
    && DecisionBacked(r.decision, tests[0], reviews)
  }

  // ------------------------------------------------------------- facts about the parts

  lemma TestReasonsEmptyIff(t: TestReport)
    ensures TestReasons(t) == [] <==> t.status.Passed?
  {
    assert |Analyses(t.findings)| == |t.findings|;
  }

  lemma {:induction false} AllReasonsEmptyIff(tests: seq<TestReport>)
    ensures |AllReasons(tests)| == 0 <==> AllTestsPass(tests)
  {
    if tests == [] {
    } else {
      var front, last := tests[..|tests| - 1], tests[|tests| - 1];
      AllReasonsEmptyIff(front);
      TestReasonsEmptyIff(last);
      assert AllTestsPass(tests) <==> AllTestsPass(front) && last.status.Passed?;
    }
  }

  lemma ReasonsEmptyIff(tests: seq<TestReport>)
    ensures BlockingReasons(tests) == [] <==> AllTestsPass(tests)
  {
    AllReasonsEmptyIff(tests);
    if |AllReasons(tests)| != 0 { assert AllReasons(tests)[0] in BlockingReasons(tests); }
  }

  lemma TestReasonMeaning(t: TestReport, r: Reason)
    ensures r in TestReasons(t) <==> !t.status.Passed? && GivesReason(t, r)
  {
    if r.TesterAnalysis? && r.finding in t.findings {
      var k :| 0 <= k < |t.findings| && t.findings[k] == r.finding;
      assert Analyses(t.findings)[k] == r;
    }
  }

  lemma {:induction false} AllReasonMeaning(tests: seq<TestReport>, r: Reason)
    ensures r in AllReasons(tests) <==> exists i :: 0 <= i < |tests| && r in TestReasons(tests[i])
  {
    hide TestReasons;
    if tests == [] {
    } else {
      var front, last := tests[..|tests| - 1], tests[|tests| - 1];
      AllReasonMeaning(front, r);
      assert r in AllReasons(tests) <==> r in AllReasons(front) || r in TestReasons(last);
      if r in AllReasons(front) {
        var i :| 0 <= i < |front| && r in TestReasons(front[i]);
        assert tests[i] == front[i];
      }
      forall i | 0 <= i < |tests| && r in TestReasons(tests[i]) ensures r in AllReasons(tests) {
        if i < |front| { assert front[i] == tests[i]; }
      }
    }
  }

  /** What blocks a decision: of each report that did not pass, its blockers and its tester's
      findings, and its bare status when it has neither. */
  lemma ReasonMeaning(tests: seq<TestReport>, r: Reason)
    ensures r in BlockingReasons(tests)
            <==> exists i :: 0 <= i < |tests| && !tests[i].status.Passed? && GivesReason(tests[i], r)
  {
    AllReasonMeaning(tests, r);
    forall i | 0 <= i < |tests|
      ensures r in TestReasons(tests[i]) <==> !tests[i].status.Passed? && GivesReason(tests[i], r)
    {
      TestReasonMeaning(tests[i], r);
    }
  }

  predicate GivesReason(t: TestReport, r: Reason) {
    || r in t.blockers
    || (r.TesterAnalysis? && r.finding in t.findings)
    || (t.blockers == [] && t.findings == [] && r == TesterStatus(t.producer, t.status))
  }

  /** Later reasons never move earlier ones: with distinctness and the same elements, the
      result lists first occurrences in their order. */
  lemma {:induction false} UniqueKeepsOrder(a: seq<Reason>, b: seq<Reason>)
    ensures Unique(a) <= Unique(a + b)
  {
    if b == [] {
      assert a + b == a;
    } else {
      assert (a + b)[..|a + b| - 1] == a + b[..|b| - 1];
      UniqueKeepsOrder(a, b[..|b| - 1]);
    }
  }

  lemma {:induction false} FindingMeaning(reviews: seq<ReviewReport>, f: Finding)
    ensures f in AllFindings(reviews) <==> exists i :: 0 <= i < |reviews| && f in reviews[i].findings
  {
    if reviews == [] {
    } else {
      FindingMeaning(reviews[..|reviews| - 1], f);
    }
  }

  lemma {:induction false} BlockingDistinct(findings: seq<Finding>)
    requires Distinct(FindingIds(findings))
    ensures Distinct(FindingIds(BlockingOnly(findings)))
  {
    if findings == [] {
    } else {
      var front, last := findings[..|findings| - 1], findings[|findings| - 1];
      forall i, j | 0 <= i < j < |front| ensures FindingIds(front)[i] != FindingIds(front)[j] {
        assert FindingIds(findings)[i] != FindingIds(findings)[j];
      }
      BlockingDistinct(front);
      forall f | f in BlockingOnly(front) ensures f.id != last.id {
        var i :| 0 <= i < |front| && front[i] == f;
        assert FindingIds(findings)[i] != FindingIds(findings)[|findings| - 1];
      }
    }
  }

  /** Valid reviews carry a blocking finding exactly when one of them does not accept. */
  lemma BlockingIffNotAccepted(reviews: seq<ReviewReport>)
    requires forall i :: 0 <= i < |reviews| ==> ValidReviewReport(reviews[i])
    ensures BlockingIds(reviews) == [] <==> AllAccept(reviews)
  {
    if AllAccept(reviews) && BlockingFindings(reviews) != [] {
      var f := BlockingFindings(reviews)[0];
      FindingMeaning(reviews, f);
      var i :| 0 <= i < |reviews| && f in reviews[i].findings;
      assert HasBlocking(reviews[i].findings);
      assert false;
    }
    if !AllAccept(reviews) {
      var i :| 0 <= i < |reviews| && !reviews[i].verdict.Accept?;
      var k :| 0 <= k < |reviews[i].findings| && reviews[i].findings[k].blocking;
      FindingMeaning(reviews, reviews[i].findings[k]);
      assert reviews[i].findings[k] in BlockingFindings(reviews);
    }
  }

  // ------------------------------------------------------------- decision agreement

  predicate ValidTeam(team: Team) {
    !team.single && team.planDigest.Some? && team.writers != {}
  }

  /** Reports of one pass that are valid one by one, come from different approved agents,
      chain the pass's commits and agree on the controller's evidence. */
  predicate EvidenceFits(team: Team, pass: Pass) {
    && pass.tests != []
    && (forall i, j :: 0 <= i < j < |pass.works| ==> pass.works[i].producer != pass.works[j].producer)
    && (forall i, j :: 0 <= i < j < |pass.tests| ==> pass.tests[i].producer != pass.tests[j].producer)
    && Distinct(Producers(pass.reviews))
    && ProducersCover(team, pass.works, pass.tests, pass.reviews)
    && AllOfIteration(pass.iteration, pass.works, pass.tests, pass.reviews)
    && CommitChain(pass.works, pass.input, pass.output)
    && TestedAndReviewed(pass.output, pass.tests, pass.reviews)
    && TestsAgree(pass.tests)
    && ManualReviewed(pass.tests, pass.reviews)
    && (forall i :: 0 <= i < |pass.tests| ==> ValidTestReport(pass.tests[i]))
    && (forall i :: 0 <= i < |pass.reviews| ==> ValidReviewReport(pass.reviews[i]))
  }

  /** A passed report leaves its manual criteria pending, so accepted reviews settle them. */
  lemma PassedReportResolves(t: TestReport, reviews: seq<ReviewReport>)
    requires ValidTestReport(t) && t.status.Passed? && AllAccept(reviews)
    requires ReviewedCriteria(reviews) == Elements(t.manual)
    ensures Resolvable(t, reviews)
  {
    forall i | 0 <= i < |t.criteria| && t.criteria[i].id in t.manual ensures t.criteria[i].status.PendingReview? {
      assert InTesterScope(t, t.criteria[i]) && ReviewBoundaryKept(t, t.criteria[i]);
    }
  }

  lemma AgreedStatus(tests: seq<TestReport>)
    requires tests != [] && TestsAgree(tests)
    ensures AllTestsPass(tests) <==> tests[0].status.Passed?
    ensures SomeTestIs(tests, Blocked) <==> tests[0].status.Blocked?
  {
    assert SameEvidence(tests[0], tests[0]);
  }

  lemma DecisionIsBacked(team: Team, pass: Pass, limit: nat, previous: Option<Signature>)
    requires EvidenceFits(team, pass)
    ensures DecisionBacked(FinalDecision(pass.tests, pass.reviews, pass.iteration, limit, previous),
                           pass.tests[0], pass.reviews)
  {
    AgreedStatus(pass.tests);
    if AllTestsPass(pass.tests) && AllAccept(pass.reviews) {
      PassedReportResolves(pass.tests[0], pass.reviews);
    }
  }

  /** The references of one pass: right kinds, and no path twice. */
  lemma ReferencesFit(sha: Artifact -> nat, pass: Pass)
    requires forall i, j :: 0 <= i < j < |pass.works| ==> pass.works[i].producer != pass.works[j].producer
    requires forall i, j :: 0 <= i < j < |pass.tests| ==> pass.tests[i].producer != pass.tests[j].producer
    requires Distinct(Producers(pass.reviews))
    ensures AllOfKind(WorkRefs(sha, pass.works), WorkKind) && Distinct(PathsOf(WorkRefs(sha, pass.works)))
    ensures AllOfKind(TestRefs(sha, pass.tests), TestKind) && Distinct(PathsOf(TestRefs(sha, pass.tests)))
    ensures AllOfKind(ReviewRefs(sha, pass.reviews), ReviewKind)
    ensures Distinct(PathsOf(ReviewRefs(sha, pass.reviews)))
  {
    var w, t, r := PathsOf(WorkRefs(sha, pass.works)), PathsOf(TestRefs(sha, pass.tests)),
                   PathsOf(ReviewRefs(sha, pass.reviews));
    assert forall i :: 0 <= i < |w| ==> w[i].producer == pass.works[i].producer;
    assert forall i :: 0 <= i < |t| ==> t[i].producer == pass.tests[i].producer;
    assert forall i :: 0 <= i < |r| ==> r[i].producer == Producers(pass.reviews)[i];
  }

  /** Which decision a pass gets: accepted iff every report passed and every review accepted;
      revised iff it can be corrected, a pass is left and the blockers are new. */
  lemma DecisionIff(tests: seq<TestReport>, reviews: seq<ReviewReport>, iteration: nat, limit: nat,
                    previous: Option<Signature>)
    ensures var decision := FinalDecision(tests, reviews, iteration, limit, previous);
            && (decision.AcceptIteration? <==> AllTestsPass(tests) && AllAccept(reviews))
            && (decision.ReviseIteration?
                <==> Correctable(tests, reviews) && iteration < limit && previous != Some(SignatureOf(tests, reviews)))
  {
  }

  lemma BlockersMatchDecision(team: Team, pass: Pass, limit: nat, previous: Option<Signature>)
    requires EvidenceFits(team, pass)
    ensures FinalDecision(pass.tests, pass.reviews, pass.iteration, limit, previous).AcceptIteration?
            <==> BlockingIds(pass.reviews) == [] && BlockingReasons(pass.tests) == []
  {
    hide FinalDecision, BlockingIds, BlockingReasons, ValidTestReport, ValidReviewReport, ProducersCover, CommitChain;
    hide ManualReviewed, TestsAgree, AllTestsPass, AllAccept, Correctable, SignatureOf;
    DecisionIff(pass.tests, pass.reviews, pass.iteration, limit, previous);
    ReasonsEmptyIff(pass.tests);
    BlockingIffNotAccepted(pass.reviews);
  }

  lemma WorksPresent(team: Team, pass: Pass)
    requires ValidTeam(team) && EvidenceFits(team, pass)
    ensures pass.works != []
  {
    var w :| w in team.writers;
    assert w in WorkProducers(pass.works);
  }

  lemma RecordValidIff(r: IterationRecord)
    requires r.plan.None? && r.works != [] && r.tests != []
    requires AllOfKind(r.works, WorkKind) && AllOfKind(r.tests, TestKind) && AllOfKind(r.reviews, ReviewKind)
    requires Distinct(PathsOf(r.works)) && Distinct(PathsOf(r.tests)) && Distinct(PathsOf(r.reviews))
    requires Distinct(r.blockingReasons) && Distinct(r.resolvedIds)
    requires r.decision.AcceptIteration? <==> r.blockingIds == [] && r.blockingReasons == []
    requires forall x :: x in r.resolvedIds ==> x !in r.blockingIds
    ensures ValidRecord(r) <==> r.inputCommit != r.outputCommit && Distinct(r.blockingIds)
  {
    assert forall i :: 0 <= i < |r.blockingIds| ==> r.blockingIds[i] in r.blockingIds;
  }

  lemma RecordEvidenceIff(team: Team, pass: Pass, r: IterationRecord)
    requires EvidenceFits(team, pass) && PlanAgrees(team, r)
    requires r.iteration == pass.iteration && r.inputCommit == pass.input && r.outputCommit == pass.output
    requires r.blockingIds == BlockingIds(pass.reviews)
    requires DecisionBacked(r.decision, pass.tests[0], pass.reviews)
    ensures RecordEvidence(team, r, pass.works, pass.tests, pass.reviews) <==> FindingsDistinct(pass.reviews)
  {
  }

  lemma BuiltRecordValidIff(sha: Artifact -> nat, team: Team, pass: Pass, limit: nat, carried: Carried)
    requires ValidTeam(team) && EvidenceFits(team, pass) && Distinct(carried.blockingIds)
    ensures ValidRecord(RecordOf(sha, team, pass, limit, carried))
            <==> pass.input != pass.output && Distinct(BlockingIds(pass.reviews))
  {
    WorksPresent(team, pass);
    ReferencesFit(sha, pass);
    BlockersMatchDecision(team, pass, limit, carried.signature);
    RecordValidIff(RecordOf(sha, team, pass, limit, carried));
  }

  lemma BuiltRecordEvidenceIff(sha: Artifact -> nat, team: Team, pass: Pass, limit: nat, carried: Carried)
    requires ValidTeam(team) && EvidenceFits(team, pass)
    ensures RecordEvidence(team, RecordOf(sha, team, pass, limit, carried), pass.works, pass.tests, pass.reviews)
            <==> FindingsDistinct(pass.reviews)
  {
    DecisionIsBacked(team, pass, limit, carried.signature);
    RecordEvidenceIff(team, pass, RecordOf(sha, team, pass, limit, carried));
  }

  /** Decision agreement: the record built from the decision, the repeated-blocker override
      and the blocking reasons passes its own validator and every check the store makes
      against the reports, exactly when the pass changed the commit and no finding ID is
      used twice across its reviews. */
  lemma DecisionAgreementIff(sha: Artifact -> nat, team: Team, pass: Pass, limit: nat, carried: Carried)
    requires ValidTeam(team) && EvidenceFits(team, pass) && Distinct(carried.blockingIds)
    ensures var r := RecordOf(sha, team, pass, limit, carried);
            ValidRecord(r) && RecordEvidence(team, r, pass.works, pass.tests, pass.reviews)
            <==> pass.input != pass.output && FindingsDistinct(pass.reviews)
  {
    BuiltRecordValidIff(sha, team, pass, limit, carried);
    BuiltRecordEvidenceIff(sha, team, pass, limit, carried);
    if FindingsDistinct(pass.reviews) { BlockingDistinct(AllFindings(pass.reviews)); }
  }
}
