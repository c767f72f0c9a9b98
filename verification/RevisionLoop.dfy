/** The revision loop of an approved plan (dynamic_workflow.py): passes of the runner, one
    record each, until a decision ends the run with a final report. */
module RevisionLoop {
  import opened Prelude
  import opened Evidence
  import opened Assembly
  import opened Acceptance
  import opened Decision

  /** What the user approved, and the review scopes resolved from it. */
  datatype Approved = Approved(
    team: Team, brief: seq<CriterionId>, manual: seq<CriterionId>, scopes: Scopes, limit: nat)

  ghost predicate ValidApproved(a: Approved) {
    && ValidTeam(a.team)
    && a.brief != [] && Distinct(a.brief) && Distinct(a.manual)
    && a.scopes.Keys == a.team.reviewers && ScopesPartition(a.scopes, a.manual)
    && a.limit >= 1
  }

  datatype Termination =
    | Succeeded | RepeatedBlocker | DependencyUnavailable | ArtifactInvalid | SafetyBoundaryCrossed
    | IterationLimitReached | NoRelevantChange | ExecutionFailed

  /** How one scheduling pass ends: by the user, by a failed agent or another error (with the
      test reports it left), or with the evidence of a pass in which every agent completed or, after a
      failing test report, only some did. `commit` is where the run then stands. */
  datatype Outcome =
    | StoppedByUser(commit: Commit)
    | AgentFailed(reason: Termination, commit: Commit, tests: seq<TestReport>)
    | Finished(complete: bool, pass: Pass)

  /** A report that `assemble_test_report` built for this approval. */
  predicate Assembled(a: Approved, t: TestReport) {
    && ValidAssignment(a.brief, t.commands, a.manual)
    && ValidTestReport(t)
    && t == TestReportOf(a.brief, t.producer, t.iteration, t.inputCommit, t.commands, a.manual, t.findings)
  }

  /** What the runner, the scheduler and the Git snapshot guarantee about a finished pass. */
  predicate FromRunner(a: Approved, n: nat, input: Commit, complete: bool, pass: Pass) {
    && pass.iteration == n && pass.input == input
    && (forall i, j :: 0 <= i < j < |pass.works| ==> pass.works[i].producer != pass.works[j].producer)
    && (forall i, j :: 0 <= i < j < |pass.tests| ==> pass.tests[i].producer != pass.tests[j].producer)
    && WorkProducers(pass.works) == a.team.writers
    && AllOfIteration(n, pass.works, pass.tests, pass.reviews)
    && TestedAndReviewed(pass.output, pass.tests, pass.reviews)
    && pass.tests != []
    && (forall i :: 0 <= i < |pass.tests| ==>
          Assembled(a, pass.tests[i]) && pass.tests[i].commands == pass.tests[0].commands)
    && ReviewsInScope(a.scopes, pass.reviews)
    && (forall i :: 0 <= i < |pass.reviews| ==> ValidReviewReport(pass.reviews[i]))
    && (if complete then
          TesterIds(pass.tests) == TestProducers(a.team) && Elements(Producers(pass.reviews)) == a.team.reviewers
        else
          !AllTestsPass(pass.tests) && TesterIds(pass.tests) <= TestProducers(a.team))
  }

  /** Why a pass does not get past its snapshot, before any tester starts: `verify_snapshot`
      finds no new commit, or `_validate_work_chain` finds a broken chain. */
  function SnapshotRefusal(pass: Pass): Option<Termination> {
    if pass.input == pass.output then Some(NoRelevantChange)
    else if !CommitChain(pass.works, pass.input, pass.output) then Some(ArtifactInvalid)
    else None
  }

  /** A finished pass belongs to its turn, and past the snapshot it is what the runner guarantees. */
  predicate Finishes(a: Approved, n: nat, input: Commit, complete: bool, pass: Pass) {
    && pass.iteration == n && pass.input == input
    && (SnapshotRefusal(pass).None? ==> FromRunner(a, n, input, complete, pass))
  }

  predicate Delivers(a: Approved, n: nat, input: Commit, o: Outcome) {
    match o
    case StoppedByUser(_) => true
    case AgentFailed(_, _, tests) => forall i :: 0 <= i < |tests| ==> Assembled(a, tests[i])
    case Finished(complete, pass) => Finishes(a, n, input, complete, pass)
  }

  lemma RunnerTestsAgree(a: Approved, n: nat, input: Commit, complete: bool, pass: Pass)
    requires FromRunner(a, n, input, complete, pass)
    ensures TestsAgree(pass.tests)
  {
    assert Assembled(a, pass.tests[0]);
    forall i | 0 <= i < |pass.tests| ensures SameEvidence(pass.tests[i], pass.tests[0]) {
      assert Assembled(a, pass.tests[i]);
    }
  }

  lemma RunnerReviewsManual(a: Approved, n: nat, input: Commit, complete: bool, pass: Pass)
    requires ValidApproved(a) && FromRunner(a, n, input, complete, pass)
    ensures ManualReviewed(pass.tests, pass.reviews)
    ensures Elements(Producers(pass.reviews)) <= a.team.reviewers
  {
    assert Assembled(a, pass.tests[0]);
    ReviewedWithinManual(a.scopes, a.manual, pass.reviews);
  }

  lemma RunnerProducersCover(a: Approved, n: nat, input: Commit, complete: bool, pass: Pass)
    requires ValidApproved(a) && FromRunner(a, n, input, complete, pass)
    ensures ProducersCover(a.team, pass.works, pass.tests, pass.reviews)
  {
    RunnerReviewsManual(a, n, input, complete, pass);
    assert pass.tests[0].producer in TesterIds(pass.tests);
  }

  /** What the runner delivers is evidence the record checks can be met with. */
  lemma RunnerEvidenceFits(a: Approved, n: nat, input: Commit, complete: bool, pass: Pass)
    requires ValidApproved(a) && FromRunner(a, n, input, complete, pass)
    requires CommitChain(pass.works, pass.input, pass.output)
    ensures EvidenceFits(a.team, pass)
  {
    RunnerTestsAgree(a, n, input, complete, pass);
    RunnerReviewsManual(a, n, input, complete, pass);
    RunnerProducersCover(a, n, input, complete, pass);
    assert forall i :: 0 <= i < |pass.tests| ==> Assembled(a, pass.tests[i]);
  }

  // -------------------------------------------------------------------- final reports

  /** One finished pass with the record written for it. */
  datatype Entry = Entry(pass: Pass, record: IterationRecord, signature: Signature)

  function RecordRefs(sha: Artifact -> nat, history: seq<Entry>): seq<Reference> {
    seq(|history|, i requires 0 <= i < |history| => ReferenceTo(sha, RecordArtifact(history[i].record)))
  }

  function Records(history: seq<Entry>): seq<IterationRecord> {
    seq(|history|, i requires 0 <= i < |history| => history[i].record)
  }

  /** Records numbered 1..n whose commits form one chain. */
  predicate Contiguous(records: seq<IterationRecord>) {
    && (forall i :: 0 <= i < |records| ==> records[i].iteration == i + 1)
    && (forall i, j :: 0 <= i && j == i + 1 < |records| ==> records[j].inputCommit == records[i].outputCommit)
  }

  /** The final-report branch of `_validate_references`, on the loaded evidence. */
  predicate FinalEvidence(f: FinalReport, records: seq<IterationRecord>, lastTests: seq<TestReport>,
                          lastReviews: seq<ReviewReport>)
    requires records != [] ==> lastTests != []
  {
    records != [] ==>
      && Contiguous(records)
      && (f.status.CompletedRun? ==>
            var last := records[|records| - 1];
            && Resolvable(lastTests[0], lastReviews)
            && last.decision.AcceptIteration?
            && f.finalCommit == Some(last.outputCommit)
            && f.acceptance == SettledResults(lastTests[0]))
  }

  /** The final-report branch of `validate_artifact_context`. */
  predicate FinalContext(brief: seq<CriterionId>, f: FinalReport) {
    if f.status.CompletedRun? then Elements(CriterionIds(f.acceptance)) == Elements(brief)
    else Elements(CriterionIds(f.acceptance)) <= Elements(brief)
  }

  /** `_decision_termination_reason`. */
  function TerminationOf(tests: seq<TestReport>, reviews: seq<ReviewReport>, iteration: nat, limit: nat,
                         repeated: bool): Termination {
    if repeated then RepeatedBlocker
    else if SomeTestIs(tests, Blocked) then DependencyUnavailable
    else if SomeReviewFails(reviews) then
      if exists i :: 0 <= i < |reviews| && reviews[i].verdict.Fail? && reviews[i].termination == Some(EvidenceIntegrity)
      then ArtifactInvalid else SafetyBoundaryCrossed
    else if iteration >= limit then IterationLimitReached
    else ExecutionFailed
  }

  /** A failing decision always has a specific reason, and only a correctable pass that could
      not be revised any more is ended for the iteration limit. */
  lemma FailureHasItsReason(tests: seq<TestReport>, reviews: seq<ReviewReport>, iteration: nat, limit: nat,
                            previous: Option<Signature>)
    requires FinalDecision(tests, reviews, iteration, limit, previous).FailIteration?
    ensures var reason := TerminationOf(tests, reviews, iteration, limit, Repeats(tests, reviews, previous));
            && reason != ExecutionFailed && reason != Succeeded
            && (reason.IterationLimitReached? <==>
                  Correctable(tests, reviews) && iteration >= limit && !Repeats(tests, reviews, previous))
            && (reason.RepeatedBlocker? <==> Repeats(tests, reviews, previous))
            && (reason.DependencyUnavailable? <==> SomeTestIs(tests, Blocked))
            && (reason.ArtifactInvalid? || reason.SafetyBoundaryCrossed?
                <==> SomeReviewFails(reviews) && !SomeTestIs(tests, Blocked))
            && (reason.ArtifactInvalid? ==>
                  exists i :: 0 <= i < |reviews| && reviews[i].verdict.Fail?
                              && reviews[i].termination == Some(EvidenceIntegrity))
  {
  }

  /** How a run ends; every end has its final report. A pass that does not get past its snapshot,
      or whose evidence cannot be recorded, raises, and the run fails. */
  datatype RunEnd =
    | UserStop(report: FinalReport)
    | Refused(pass: Pass, reason: Termination, report: FinalReport)
    | RunFailed(reason: Termination, report: FinalReport)
    | Completed(report: FinalReport)

  // ------------------------------------------------------------------------ histories

  function CarriedAt(history: seq<Entry>, i: nat): Carried
    requires i <= |history|
  {
    if i == 0 then Carried(None, [])
    else Carried(Some(history[i - 1].signature), BlockingIds(history[i - 1].pass.reviews))
  }

  function CommitAt(start: Commit, history: seq<Entry>, i: nat): Commit
    requires i <= |history|
  {
    if i == 0 then start else history[i - 1].pass.output
  }

  /** The pass can be recorded: its works chain its commits, which differ, and its reviews share no finding ID. */
  predicate Recordable(pass: Pass) {
    CommitChain(pass.works, pass.input, pass.output) && pass.input != pass.output && FindingsDistinct(pass.reviews)
  }

  predicate SoundEntry(sha: Artifact -> nat, a: Approved, n: nat, input: Commit, carried: Carried, e: Entry) {
    && e.pass.iteration == n && e.pass.input == input
    && Recordable(e.pass) && EvidenceFits(a.team, e.pass)
    && Assembled(a, e.pass.tests[0])
    && ReviewsInScope(a.scopes, e.pass.reviews)
    && e.signature == SignatureOf(e.pass.tests, e.pass.reviews)
    && e.record == RecordOf(sha, a.team, e.pass, a.limit, carried)
  }

  predicate HoldsAt(start: Commit, history: seq<Entry>, holds: (nat, Commit, Carried, Entry) -> bool, i: nat)
    requires i < |history|
  {
    holds(i + 1, CommitAt(start, history, i), CarriedAt(history, i), history[i])
  }

  predicate AllHold(start: Commit, history: seq<Entry>, holds: (nat, Commit, Carried, Entry) -> bool) {
    forall i :: 0 <= i < |history| ==> HoldsAt(start, history, holds, i)
  }

  predicate OnlyLastEnds(history: seq<Entry>) {
    forall i :: 0 <= i < |history| - 1 ==> history[i].record.decision.ReviseIteration?
  }

  function SoundEntries(sha: Artifact -> nat, a: Approved): (nat, Commit, Carried, Entry) -> bool {
    (n: nat, input: Commit, carried: Carried, e: Entry) => SoundEntry(sha, a, n, input, carried, e)
  }

  /** Every pass is recorded for its own number and commit, and only the last may end the run. */
  predicate SoundHistory(sha: Artifact -> nat, a: Approved, start: Commit, history: seq<Entry>) {
    AllHold(start, history, SoundEntries(sha, a)) && OnlyLastEnds(history)
  }

  /** One more entry leaves what is carried into, and what holds of, the earlier ones as it was. */
  lemma Extended(start: Commit, history: seq<Entry>, e: Entry, holds: (nat, Commit, Carried, Entry) -> bool)
    requires AllHold(start, history, holds)
    requires holds(|history| + 1, CommitAt(start, history, |history|), CarriedAt(history, |history|), e)
    ensures AllHold(start, history + [e], holds)
  {
    var longer := history + [e];
    forall i: nat | i < |longer| ensures HoldsAt(start, longer, holds, i) {
      assert CommitAt(start, longer, i) == CommitAt(start, history, i);
      assert CarriedAt(longer, i) == CarriedAt(history, i);
      if i < |history| {
        assert longer[i] == history[i];
        assert HoldsAt(start, history, holds, i);
      }
    }
  }

  lemma Appended(sha: Artifact -> nat, a: Approved, start: Commit, history: seq<Entry>, e: Entry)
    requires SoundHistory(sha, a, start, history)
    requires history != [] ==> history[|history| - 1].record.decision.ReviseIteration?
    requires SoundEntry(sha, a, |history| + 1, CommitAt(start, history, |history|), CarriedAt(history, |history|), e)
    ensures SoundHistory(sha, a, start, history + [e])
  {
    Extended(start, history, e, SoundEntries(sha, a));
    OnlyLastStillEnds(history, e);
  }

  lemma OnlyLastStillEnds(history: seq<Entry>, e: Entry)
    requires OnlyLastEnds(history)
    requires history != [] ==> history[|history| - 1].record.decision.ReviseIteration?
    ensures OnlyLastEnds(history + [e])
  {
  }

  /** The numbering of the record of pass `i`. */
  lemma EntryNumbers(sha: Artifact -> nat, a: Approved, start: Commit, history: seq<Entry>, i: nat)
    requires SoundHistory(sha, a, start, history) && i < |history|
    ensures history[i].pass.tests != []
    ensures history[i].record.iteration == i + 1
    ensures history[i].record.inputCommit == CommitAt(start, history, i)
    ensures history[i].record.outputCommit == history[i].pass.output
  {
    assert HoldsAt(start, history, SoundEntries(sha, a), i);
  }

  /** The decision of pass `i`. */
  lemma EntryDecision(sha: Artifact -> nat, a: Approved, start: Commit, history: seq<Entry>, i: nat)
    requires SoundHistory(sha, a, start, history) && i < |history|
    ensures var r, p := history[i].record, history[i].pass;
            && history[i].signature == SignatureOf(p.tests, p.reviews)
            && r.decision == FinalDecision(p.tests, p.reviews, i + 1, a.limit, CarriedAt(history, i).signature)
  {
    assert HoldsAt(start, history, SoundEntries(sha, a), i);
  }

  /** The blockers of pass `i`. */
  lemma EntryBlockers(sha: Artifact -> nat, a: Approved, start: Commit, history: seq<Entry>, i: nat)
    requires SoundHistory(sha, a, start, history) && i < |history|
    ensures history[i].record.blockingIds == BlockingIds(history[i].pass.reviews)
  {
    assert HoldsAt(start, history, SoundEntries(sha, a), i);
  }

  lemma EntryResolves(sha: Artifact -> nat, a: Approved, start: Commit, history: seq<Entry>, i: nat)
    requires SoundHistory(sha, a, start, history) && i < |history|
    ensures history[i].record.resolvedIds
            == ResolvedIds(CarriedAt(history, i).blockingIds, history[i].record.blockingIds)
  {
    assert HoldsAt(start, history, SoundEntries(sha, a), i);
  }

  /** Entry `i` records pass i + 1, from the commit the passes before it reached to its own. */
  predicate NumberedAt(start: Commit, history: seq<Entry>, i: nat)
    requires i < |history|
  {
    && history[i].record.iteration == i + 1
    && history[i].record.inputCommit == CommitAt(start, history, i)
    && history[i].record.outputCommit == history[i].pass.output
  }

  lemma NumberedIsContiguous(start: Commit, history: seq<Entry>)
    requires forall i: nat :: i < |history| ==> NumberedAt(start, history, i)
    ensures Contiguous(Records(history))
    ensures history != [] ==> Records(history)[0].inputCommit == start
  {
    var records := Records(history);
    forall i, j | 0 <= i && j == i + 1 < |records| ensures records[j].inputCommit == records[i].outputCommit {
      assert NumberedAt(start, history, i) && NumberedAt(start, history, j);
    }
    forall i | 0 <= i < |records| ensures records[i].iteration == i + 1 {
      assert NumberedAt(start, history, i);
    }
    if history != [] { assert NumberedAt(start, history, 0); }
  }

  /** The records are numbered 1..n and their commits form one chain from the start. */
  lemma RecordsAreContiguous(sha: Artifact -> nat, a: Approved, start: Commit, history: seq<Entry>)
    requires SoundHistory(sha, a, start, history)
    ensures Contiguous(Records(history))
    ensures history != [] ==> Records(history)[0].inputCommit == start
  {
    forall i: nat | i < |history| ensures NumberedAt(start, history, i) {
      EntryNumbers(sha, a, start, history, i);
    }
    NumberedIsContiguous(start, history);
  }

  /** The loop ends within the approved number of passes. */
  lemma PassesWithinLimit(sha: Artifact -> nat, a: Approved, start: Commit, history: seq<Entry>)
    requires ValidApproved(a) && SoundHistory(sha, a, start, history)
    ensures |history| <= a.limit
  {
    if |history| >= 2 {
      var i := |history| - 2;
      var p := history[i].pass;
      EntryDecision(sha, a, start, history, i);
      RevisedForNewBlockers(p.tests, p.reviews, i + 1, a.limit, CarriedAt(history, i).signature);
    }
  }

  lemma RevisedForNewBlockers(tests: seq<TestReport>, reviews: seq<ReviewReport>, n: nat, limit: nat,
                              previous: Option<Signature>)
    requires FinalDecision(tests, reviews, n, limit, previous).ReviseIteration?
    ensures previous != Some(SignatureOf(tests, reviews)) && n < limit
  {
    assert Correctable(tests, reviews);
  }

  /** No two consecutive passes are revised for the same blockers. */
  lemma NeverRevisesSameBlockersTwice(sha: Artifact -> nat, a: Approved, start: Commit, history: seq<Entry>, i: nat)
    requires SoundHistory(sha, a, start, history) && i + 1 < |history|
    requires history[i + 1].record.decision.ReviseIteration?
    ensures history[i].record.decision.ReviseIteration? && history[i].signature != history[i + 1].signature
  {
    var p := history[i + 1].pass;
    EntryDecision(sha, a, start, history, i + 1);
    RevisedForNewBlockers(p.tests, p.reviews, i + 2, a.limit, CarriedAt(history, i + 1).signature);
  }

  /** A finding that a pass resolves blocked the pass before it, and blocks it no more. */
  lemma ResolvedWasBlocking(sha: Artifact -> nat, a: Approved, start: Commit, history: seq<Entry>, i: nat,
                            id: FindingId)
    requires SoundHistory(sha, a, start, history) && i + 1 < |history|
    ensures id in history[i + 1].record.resolvedIds
            <==> id in history[i].record.blockingIds && id !in history[i + 1].record.blockingIds
  {
    EntryBlockers(sha, a, start, history, i);
    EntryResolves(sha, a, start, history, i + 1);
  }

  /** Every record of a sound history passes its validator and the store's checks. */
  lemma EveryRecordAccepted(sha: Artifact -> nat, a: Approved, start: Commit, history: seq<Entry>, i: nat)
    requires ValidApproved(a) && SoundHistory(sha, a, start, history) && i < |history|
    ensures history[i].pass.tests != [] && ValidRecord(history[i].record)
    ensures var p := history[i].pass; RecordEvidence(a.team, history[i].record, p.works, p.tests, p.reviews)
  {
    assert HoldsAt(start, history, SoundEntries(sha, a), i);
    CarriedDistinct(sha, a, start, history, i);
    DecisionAgreementIff(sha, a.team, history[i].pass, a.limit, CarriedAt(history, i));
  }

  lemma RecordedIdsDistinct(sha: Artifact -> nat, a: Approved, start: Commit, history: seq<Entry>, i: nat)
    requires SoundHistory(sha, a, start, history) && i < |history|
    ensures Distinct(BlockingIds(history[i].pass.reviews))
  {
    assert HoldsAt(start, history, SoundEntries(sha, a), i);
    BlockingDistinct(AllFindings(history[i].pass.reviews));
  }

  lemma CarriedDistinct(sha: Artifact -> nat, a: Approved, start: Commit, history: seq<Entry>, i: nat)
    requires SoundHistory(sha, a, start, history) && i <= |history|
    ensures Distinct(CarriedAt(history, i).blockingIds)
  {
    hide SoundHistory, BlockingIds;
    if i > 0 {
      var k: nat := i - 1;
      RecordedIdsDistinct(sha, a, start, history, k);
    }
  }

  // ------------------------------------------------------------------------- the loop

  /** A final report that every check on it accepts: its own validator, the run's context and the store's. */
  ghost predicate ReportStands(sha: Artifact -> nat, a: Approved, history: seq<Entry>, f: FinalReport)
    requires forall i :: 0 <= i < |history| ==> history[i].pass.tests != []
  {
    && ValidFinalReport(f) && FinalContext(a.brief, f)
    && f.iterations == RecordRefs(sha, history)
    && (history != [] ==>
          var last := history[|history| - 1].pass; FinalEvidence(f, Records(history), last.tests, last.reviews))
  }

  lemma TestsPresent(sha: Artifact -> nat, a: Approved, start: Commit, history: seq<Entry>)
    requires SoundHistory(sha, a, start, history)
    ensures forall i :: 0 <= i < |history| ==> history[i].pass.tests != []
  {
    forall i: nat | i < |history| ensures history[i].pass.tests != [] {
      EntryNumbers(sha, a, start, history, i);
    }
  }

  function FailedReport(sha: Artifact -> nat, history: seq<Entry>, commit: Commit, lastTests: seq<TestReport>)
    : FinalReport
  {
    FinalReport(FailedRun, Some(commit), RecordRefs(sha, history),
                if lastTests == [] then [] else lastTests[0].criteria)
  }

  /** `_stop_by_user`. */
  function CancelledReport(sha: Artifact -> nat, history: seq<Entry>, commit: Commit): FinalReport {
    FinalReport(CancelledRun, Some(commit), RecordRefs(sha, history), [])
  }

  /** Why the run fails after a pass was refused: an invalid record past the snapshot is an invalid artifact. */
  function RefusalOf(pass: Pass): Termination {
    match SnapshotRefusal(pass)
    case Some(reason) => reason
    case None => ArtifactInvalid
  }

  /** The failed report after a pass was refused: at its snapshot the run still has the commit and
      the reports of the pass before it, afterwards its own. */
  function RefusedReport(sha: Artifact -> nat, history: seq<Entry>, pass: Pass): FinalReport {
    if SnapshotRefusal(pass).None? then FailedReport(sha, history, pass.output, pass.tests)
    else FailedReport(sha, history, pass.input, LastTests(history))
  }

  function LastTests(history: seq<Entry>): seq<TestReport> {
    if history == [] then [] else history[|history| - 1].pass.tests
  }

  function CompletedReport(sha: Artifact -> nat, history: seq<Entry>, commit: Commit, acceptance: seq<CriterionResult>)
    : FinalReport
  {
    FinalReport(CompletedRun, Some(commit), RecordRefs(sha, history), acceptance)
  }

  lemma IterationRefsFit(sha: Artifact -> nat, a: Approved, start: Commit, history: seq<Entry>)
    requires SoundHistory(sha, a, start, history)
    ensures AllOfKind(RecordRefs(sha, history), RecordKind) && Distinct(PathsOf(RecordRefs(sha, history)))
  {
    RecordsAreContiguous(sha, a, start, history);
    var paths := PathsOf(RecordRefs(sha, history));
    forall i | 0 <= i < |history| ensures paths[i] == RecordPath(i + 1) {
      assert Records(history)[i].iteration == i + 1;
    }
  }

  lemma FailureReportStands(sha: Artifact -> nat, a: Approved, start: Commit, history: seq<Entry>, commit: Commit,
                            lastTests: seq<TestReport>)
    requires ValidApproved(a) && SoundHistory(sha, a, start, history)
    requires lastTests != [] ==> Assembled(a, lastTests[0])
    ensures forall i :: 0 <= i < |history| ==> history[i].pass.tests != []
    ensures ReportStands(sha, a, history, FailedReport(sha, history, commit, lastTests))
  {
    TestsPresent(sha, a, start, history);
    RecordsAreContiguous(sha, a, start, history);
    IterationRefsFit(sha, a, start, history);
    if lastTests != [] { AssembledCriteria(a, lastTests[0]); }
  }

  lemma CancelledReportStands(sha: Artifact -> nat, a: Approved, start: Commit, history: seq<Entry>, commit: Commit)
    requires SoundHistory(sha, a, start, history)
    ensures forall i :: 0 <= i < |history| ==> history[i].pass.tests != []
    ensures ReportStands(sha, a, history, CancelledReport(sha, history, commit))
  {
    TestsPresent(sha, a, start, history);
    RecordsAreContiguous(sha, a, start, history);
    IterationRefsFit(sha, a, start, history);
  }

  lemma AssembledCriteria(a: Approved, t: TestReport)
    requires Assembled(a, t)
    ensures CriterionIds(t.criteria) == a.brief
  {
    assert forall i :: 0 <= i < |a.brief| ==> t.criteria[i].id == a.brief[i];
  }

  predicate EndsAccepted(history: seq<Entry>) {
    history != [] && history[|history| - 1].record.decision.AcceptIteration?
  }

  lemma AcceptedMeans(tests: seq<TestReport>, reviews: seq<ReviewReport>, n: nat, limit: nat,
                      previous: Option<Signature>)
    requires FinalDecision(tests, reviews, n, limit, previous).AcceptIteration?
    ensures AllTestsPass(tests) && AllAccept(reviews)
  {
  }

  lemma AcceptedPassBacked(a: Approved, pass: Pass)
    requires ValidApproved(a) && EvidenceFits(a.team, pass) && Assembled(a, pass.tests[0])
    requires ReviewsInScope(a.scopes, pass.reviews) && AllTestsPass(pass.tests) && AllAccept(pass.reviews)
    ensures var results := SettledResults(pass.tests[0]);
            && Resolvable(pass.tests[0], pass.reviews)
            && CriterionIds(results) == a.brief
            && forall i :: 0 <= i < |results| ==> Backed(pass.tests[0], pass.reviews, results[i])
  {
    AssembledCriteria(a, pass.tests[0]);
    AcceptedEvidenceBacks(a.brief, pass.tests[0], a.scopes, pass.reviews);
  }

  lemma BackedReportIsComplete(f: FinalReport, brief: seq<CriterionId>, test: TestReport, reviews: seq<ReviewReport>)
    requires f.status.CompletedRun? && f.finalCommit.Some? && f.iterations != []
    requires AllOfKind(f.iterations, RecordKind) && Distinct(PathsOf(f.iterations))
    requires brief != [] && Distinct(brief) && CriterionIds(f.acceptance) == brief
    requires forall i :: 0 <= i < |f.acceptance| ==> Backed(test, reviews, f.acceptance[i])
    ensures ValidFinalReport(f) && FinalContext(brief, f)
  {
    assert forall i :: 0 <= i < |f.acceptance| ==> f.acceptance[i].status.Passed?;
  }

  lemma LastPassAccepted(sha: Artifact -> nat, a: Approved, start: Commit, history: seq<Entry>)
    requires ValidApproved(a) && SoundHistory(sha, a, start, history) && EndsAccepted(history)
    ensures var p := history[|history| - 1].pass;
            && p.tests != [] && Resolvable(p.tests[0], p.reviews)
            && CriterionIds(SettledResults(p.tests[0])) == a.brief
            && forall i :: 0 <= i < |a.brief| ==> Backed(p.tests[0], p.reviews, SettledResults(p.tests[0])[i])
  {
    var last := |history| - 1;
    var p := history[last].pass;
    EntryDecision(sha, a, start, history, last);
    AcceptedMeans(p.tests, p.reviews, last + 1, a.limit, CarriedAt(history, last).signature);
    assert HoldsAt(start, history, SoundEntries(sha, a), last);
    AcceptedPassBacked(a, p);
  }

  /** Acceptance soundness over a whole run: once a pass is accepted, resolving acceptance
      cannot raise, the completed report passes every check on it, and each of the brief's
      criteria is passed with evidence behind it. */
  lemma CompletionStands(sha: Artifact -> nat, a: Approved, start: Commit, history: seq<Entry>)
    requires ValidApproved(a) && SoundHistory(sha, a, start, history) && EndsAccepted(history)
    ensures forall i :: 0 <= i < |history| ==> history[i].pass.tests != []
    ensures var p := history[|history| - 1].pass;
            var f := CompletedReport(sha, history, p.output, SettledResults(p.tests[0]));
            && Resolvable(p.tests[0], p.reviews)
            && ReportStands(sha, a, history, f)
            && CriterionIds(f.acceptance) == a.brief
            && forall i :: 0 <= i < |a.brief| ==> Backed(p.tests[0], p.reviews, f.acceptance[i])
  {
    var p := history[|history| - 1].pass;
    TestsPresent(sha, a, start, history);
    LastPassAccepted(sha, a, start, history);
    RecordsAreContiguous(sha, a, start, history);
    IterationRefsFit(sha, a, start, history);
    EntryNumbers(sha, a, start, history, |history| - 1);
    BackedReportIsComplete(CompletedReport(sha, history, p.output, SettledResults(p.tests[0])), a.brief,
                           p.tests[0], p.reviews);
  }

  /** The record of a finished pass passes its checks iff the pass is recordable, and then
      continues the history. */
  lemma RecordContinues(sha: Artifact -> nat, a: Approved, start: Commit, history: seq<Entry>, carried: Carried,
                        complete: bool, pass: Pass)
    requires ValidApproved(a) && SoundHistory(sha, a, start, history)
    requires history != [] ==> history[|history| - 1].record.decision.ReviseIteration?
    requires FromRunner(a, |history| + 1, CommitAt(start, history, |history|), complete, pass)
    requires carried == CarriedAt(history, |history|) && CommitChain(pass.works, pass.input, pass.output)
    ensures pass.tests != []
    ensures var r := RecordOf(sha, a.team, pass, a.limit, carried);
            && (ValidRecord(r) && RecordEvidence(a.team, r, pass.works, pass.tests, pass.reviews) <==> Recordable(pass))
            && (Recordable(pass) ==>
                  SoundHistory(sha, a, start, history + [Entry(pass, r, SignatureOf(pass.tests, pass.reviews))]))
  {
    var n, input := |history| + 1, CommitAt(start, history, |history|);
    CarriedDistinct(sha, a, start, history, |history|);
    RunnerEvidenceFits(a, n, input, complete, pass);
    DecisionAgreementIff(sha, a.team, pass, a.limit, carried);
    if Recordable(pass) {
      var e := Entry(pass, RecordOf(sha, a.team, pass, a.limit, carried), SignatureOf(pass.tests, pass.reviews));
      FinishedIsSound(sha, a, n, input, carried, complete, e);
      Appended(sha, a, start, history, e);
    }
  }

  lemma FinishedIsSound(sha: Artifact -> nat, a: Approved, n: nat, input: Commit, carried: Carried, complete: bool,
                        e: Entry)
    requires FromRunner(a, n, input, complete, e.pass) && EvidenceFits(a.team, e.pass) && Recordable(e.pass)
    requires e.signature == SignatureOf(e.pass.tests, e.pass.reviews)
    requires e.record == RecordOf(sha, a.team, e.pass, a.limit, carried)
    ensures SoundEntry(sha, a, n, input, carried, e)
  {
    hide EvidenceFits, RecordOf, SignatureOf, Recordable;
    assert Assembled(a, e.pass.tests[0]);
  }

  /** The snapshot boundary of a pass: `verify_snapshot`, then the loop of `_validate_work_chain`. */
  method CrossSnapshot(pass: Pass) returns (refusal: Option<Termination>)
    ensures refusal == SnapshotRefusal(pass)
  {
    if pass.output == pass.input { return Some(NoRelevantChange); }
    var expected := pass.input;
    for i := 0 to |pass.works|
      invariant CommitChain(pass.works, pass.input, pass.output)
                <==> CommitChain(pass.works[i..], expected, pass.output)
    {
      if pass.works[i].inputCommit != expected { return Some(ArtifactInvalid); }
      expected := pass.works[i].outputCommit;
    }
    if expected != pass.output { return Some(ArtifactInvalid); }
    return None;
  }

  /** Deciding and recording one finished pass; None where the snapshot boundary, the record's
      validator or the store refuses it. */
  method RecordPass(sha: Artifact -> nat, a: Approved, start: Commit, history: seq<Entry>, carried: Carried,
                    complete: bool, pass: Pass)
    returns (entry: Option<Entry>, refusal: Termination)
    requires ValidApproved(a) && SoundHistory(sha, a, start, history)
    requires history != [] ==> history[|history| - 1].record.decision.ReviseIteration?
    requires Finishes(a, |history| + 1, CommitAt(start, history, |history|), complete, pass)
    requires carried == CarriedAt(history, |history|)
    ensures entry.Some? <==> Recordable(pass)
    ensures entry.None? ==> refusal == RefusalOf(pass)
    ensures entry.Some? ==>
              && SoundHistory(sha, a, start, history + [entry.value])
              && entry.value.pass == pass && entry.value.signature == SignatureOf(pass.tests, pass.reviews)
  {
    hide SoundHistory, ValidApproved, CommitChain, FindingsDistinct, ValidRecord, RecordEvidence, SignatureOf;
    hide Decide, BlockingIds, BlockingReasons, ResolvedIds, WorkRefs, TestRefs, ReviewRefs, Correctable, FromRunner;
    var stopped := CrossSnapshot(pass);
    if stopped.Some? { return None, stopped.value; }
    refusal := ArtifactInvalid;
    var decision := Decide(pass.tests, pass.reviews, pass.iteration, a.limit);
    var blockingIds := BlockingIds(pass.reviews);
    var reasons := BlockingReasons(pass.tests);
    var signature := SignatureOf(pass.tests, pass.reviews);
    var repeated := Correctable(pass.tests, pass.reviews) && carried.signature == Some(signature);
    if repeated {
      decision := FailIteration;
    }
    var record := IterationRecord(
      pass.iteration, pass.input, pass.output, None, a.team.planDigest,
      WorkRefs(sha, pass.works), TestRefs(sha, pass.tests), ReviewRefs(sha, pass.reviews),
      decision, blockingIds, reasons, ResolvedIds(carried.blockingIds, blockingIds));
    assert record == RecordOf(sha, a.team, pass, a.limit, carried);
    RecordContinues(sha, a, start, history, carried, complete, pass);
    if !ValidRecord(record) || !RecordEvidence(a.team, record, pass.works, pass.tests, pass.reviews) {
      return None, refusal;
    }
    return Some(Entry(pass, record, signature)), refusal;
  }

  /** What every way of ending guarantees. */
  ghost predicate SoundRun(sha: Artifact -> nat, a: Approved, start: Commit, history: seq<Entry>, end: RunEnd) {
    && SoundHistory(sha, a, start, history) && |history| <= a.limit
    && (forall i :: 0 <= i < |history| ==> history[i].pass.tests != [])
    && (end.Completed? <==> EndsAccepted(history))
    && ReportStands(sha, a, history, end.report)
    && (end.Completed? ==>
          var p := history[|history| - 1].pass;
          end.report == CompletedReport(sha, history, p.output, SettledResults(p.tests[0])))
    && (end.Refused? ==>
          && !Recordable(end.pass) && end.reason == RefusalOf(end.pass)
          && end.report == RefusedReport(sha, history, end.pass))
  }

  lemma StopIsSound(sha: Artifact -> nat, a: Approved, start: Commit, history: seq<Entry>, commit: Commit)
    requires ValidApproved(a) && SoundHistory(sha, a, start, history) && !EndsAccepted(history)
    ensures SoundRun(sha, a, start, history, UserStop(CancelledReport(sha, history, commit)))
  {
    hide SoundHistory, ReportStands;
    PassesWithinLimit(sha, a, start, history);
    CancelledReportStands(sha, a, start, history, commit);
  }

  lemma RefusalIsSound(sha: Artifact -> nat, a: Approved, start: Commit, history: seq<Entry>, pass: Pass)
    requires ValidApproved(a) && SoundHistory(sha, a, start, history) && !EndsAccepted(history)
    requires SnapshotRefusal(pass).None? ==> pass.tests != [] && Assembled(a, pass.tests[0])
    requires !Recordable(pass)
    ensures SoundRun(sha, a, start, history, Refused(pass, RefusalOf(pass), RefusedReport(sha, history, pass)))
  {
    hide SoundHistory, ReportStands, Assembled, FailedReport, Recordable, RefusalOf;
    PassesWithinLimit(sha, a, start, history);
    if SnapshotRefusal(pass).None? {
      FailureReportStands(sha, a, start, history, pass.output, pass.tests);
    } else {
      if history != [] { LastEntryAssembled(sha, a, start, history); }
      FailureReportStands(sha, a, start, history, pass.input, LastTests(history));
    }
  }

  lemma FailureIsSound(sha: Artifact -> nat, a: Approved, start: Commit, history: seq<Entry>, reason: Termination,
                       commit: Commit, lastTests: seq<TestReport>)
    requires ValidApproved(a) && SoundHistory(sha, a, start, history) && !EndsAccepted(history)
    requires lastTests != [] ==> Assembled(a, lastTests[0])
    ensures SoundRun(sha, a, start, history, RunFailed(reason, FailedReport(sha, history, commit, lastTests)))
  {
    PassesWithinLimit(sha, a, start, history);
    FailureReportStands(sha, a, start, history, commit, lastTests);
  }

  lemma CompletionIsSound(sha: Artifact -> nat, a: Approved, start: Commit, history: seq<Entry>)
    requires ValidApproved(a) && SoundHistory(sha, a, start, history) && EndsAccepted(history)
    ensures var p := history[|history| - 1].pass;
            && p.tests != [] && Resolvable(p.tests[0], p.reviews)
            && SoundRun(sha, a, start, history,
                        Completed(CompletedReport(sha, history, p.output, SettledResults(p.tests[0]))))
  {
    PassesWithinLimit(sha, a, start, history);
    CompletionStands(sha, a, start, history);
  }

  lemma LastEntryAssembled(sha: Artifact -> nat, a: Approved, start: Commit, history: seq<Entry>)
    requires SoundHistory(sha, a, start, history) && history != []
    ensures history[|history| - 1].pass.tests != [] && Assembled(a, history[|history| - 1].pass.tests[0])
  {
    assert HoldsAt(start, history, SoundEntries(sha, a), |history| - 1);
  }

  /** What the decision of the last recorded pass leads to; None where the loop goes on. */
  predicate EndsOnDecision(sha: Artifact -> nat, a: Approved, history: seq<Entry>, end: Option<RunEnd>)
    requires history != []
  {
    var pass := history[|history| - 1].pass;
    match history[|history| - 1].record.decision
    case AcceptIteration => end.Some? && end.value.Completed?
    case ReviseIteration => end.None?
    case FailIteration =>
      var repeated := Repeats(pass.tests, pass.reviews, CarriedAt(history, |history| - 1).signature);
      end == Some(RunFailed(TerminationOf(pass.tests, pass.reviews, |history|, a.limit, repeated),
                            FailedReport(sha, history, pass.output, pass.tests)))
  }

  /** What an outcome that adds no record leads to. */
  predicate EndsOnOutcome(sha: Artifact -> nat, history: seq<Entry>, outcome: Outcome, end: RunEnd) {
    match outcome
    case StoppedByUser(commit) => end == UserStop(CancelledReport(sha, history, commit))
    case AgentFailed(reason, commit, tests) =>
      end == RunFailed(reason, FailedReport(sha, history, commit, if tests != [] then tests else LastTests(history)))
    case Finished(_, pass) =>
      end == Refused(pass, RefusalOf(pass), RefusedReport(sha, history, pass)) && !Recordable(pass)
  }

  predicate Ran(runner: (nat, Commit) -> Outcome, start: Commit, history: seq<Entry>, i: nat)
    requires i < |history|
  {
    var outcome := runner(i + 1, CommitAt(start, history, i));
    outcome.Finished? && outcome.pass == history[i].pass
  }

  /** The run is the one this runner produces: its passes, in order, and the end that the
      last decision or the next outcome calls for. */
  predicate FollowsRunner(sha: Artifact -> nat, a: Approved, runner: (nat, Commit) -> Outcome, start: Commit,
                          history: seq<Entry>, end: RunEnd) {
    && (forall i :: 0 <= i < |history| ==> Ran(runner, start, history, i))
    && (if history != [] && !history[|history| - 1].record.decision.ReviseIteration?
        then EndsOnDecision(sha, a, history, Some(end))
        else EndsOnOutcome(sha, history, runner(|history| + 1, CommitAt(start, history, |history|)), end))
  }

  lemma RanKept(runner: (nat, Commit) -> Outcome, start: Commit, history: seq<Entry>, next: seq<Entry>)
    requires forall i :: 0 <= i < |history| ==> Ran(runner, start, history, i)
    requires |next| == |history| + 1 && next[..|history|] == history
    requires var outcome := runner(|history| + 1, CommitAt(start, history, |history|));
             outcome.Finished? && outcome.pass == next[|history|].pass
    ensures forall i :: 0 <= i < |next| ==> Ran(runner, start, next, i)
    ensures CarriedAt(next, |history|) == CarriedAt(history, |history|)
  {
    forall i: nat | i < |next| ensures Ran(runner, start, next, i) {
      assert forall k :: 0 <= k < |history| ==> next[k] == next[..|history|][k] == history[k];
      assert CommitAt(start, next, i) == CommitAt(start, history, i);
      if i < |history| { assert Ran(runner, start, history, i); }
    }
  }

  lemma CarriedKept(history: seq<Entry>, e: Entry, next: seq<Entry>)
    requires next == history + [e]
    ensures next != [] && |next| - 1 == |history| && next[|next| - 1] == e && next[..|history|] == history
    ensures CarriedAt(next, |next| - 1) == CarriedAt(history, |history|)
  {
  }

  /** The end of one turn of the loop: what the decision of the last recorded pass leads to. */
  method FollowDecision(sha: Artifact -> nat, a: Approved, start: Commit, history: seq<Entry>, repeated: bool)
    returns (end: Option<RunEnd>)
    requires ValidApproved(a) && SoundHistory(sha, a, start, history) && history != []
    requires var p := history[|history| - 1].pass;
             repeated == Repeats(p.tests, p.reviews, CarriedAt(history, |history| - 1).signature)
    ensures EndsOnDecision(sha, a, history, end)
    ensures end.Some? ==> SoundRun(sha, a, start, history, end.value)
  {
    var pass := history[|history| - 1].pass;
    LastEntryAssembled(sha, a, start, history);
    match history[|history| - 1].record.decision {
      case AcceptIteration =>
        CompletionIsSound(sha, a, start, history);
        var results := ResolveAcceptanceResults(pass.tests[0], pass.reviews);
        end := Some(Completed(CompletedReport(sha, history, pass.output, results.value)));
      case FailIteration =>
        var reason := TerminationOf(pass.tests, pass.reviews, |history|, a.limit, repeated);
        FailureIsSound(sha, a, start, history, reason, pass.output, pass.tests);
        end := Some(RunFailed(reason, FailedReport(sha, history, pass.output, pass.tests)));
      case ReviseIteration =>
        end := None;
    }
  }

  lemma RevisionLeavesRoom(sha: Artifact -> nat, a: Approved, start: Commit, history: seq<Entry>)
    requires SoundHistory(sha, a, start, history) && history != []
    requires history[|history| - 1].record.decision.ReviseIteration?
    ensures |history| < a.limit
  {
    var last := |history| - 1;
    var p := history[last].pass;
    EntryDecision(sha, a, start, history, last);
    RevisedForNewBlockers(p.tests, p.reviews, last + 1, a.limit, CarriedAt(history, last).signature);
  }

  lemma FirstReportAssembled(a: Approved, n: nat, input: Commit, complete: bool, pass: Pass)
    requires Finishes(a, n, input, complete, pass)
    ensures SnapshotRefusal(pass).None? ==> pass.tests != [] && Assembled(a, pass.tests[0])
  {
  }

  /** Recording a finished pass and following its decision. */
  method FinishPass(sha: Artifact -> nat, a: Approved, start: Commit, history: seq<Entry>, carried: Carried,
                    complete: bool, pass: Pass)
    returns (end: Option<RunEnd>, next: seq<Entry>)
    requires ValidApproved(a) && SoundHistory(sha, a, start, history)
    requires history != [] ==> history[|history| - 1].record.decision.ReviseIteration?
    requires carried == CarriedAt(history, |history|)
    requires Finishes(a, |history| + 1, CommitAt(start, history, |history|), complete, pass)
    ensures !Recordable(pass) ==>
              next == history && end == Some(Refused(pass, RefusalOf(pass), RefusedReport(sha, history, pass)))
    ensures Recordable(pass) ==>
              && |next| == |history| + 1 && next[..|history|] == history && next[|history|].pass == pass
              && SoundHistory(sha, a, start, next) && EndsOnDecision(sha, a, next, end)
    ensures end.Some? ==> SoundRun(sha, a, start, next, end.value)
  {
    hide SoundHistory, SoundRun, Finishes, RefusalOf, Assembled, Recordable, EndsOnDecision, FailedReport;
    hide RefusedReport, SignatureOf, Repeats;
    LastIsNotAccepted(history);
    var entry, refusal := RecordPass(sha, a, start, history, carried, complete, pass);
    if entry.None? {
      FirstReportAssembled(a, |history| + 1, CommitAt(start, history, |history|), complete, pass);
      RefusalIsSound(sha, a, start, history, pass);
      return Some(Refused(pass, refusal, RefusedReport(sha, history, pass))), history;
    }
    next := history + [entry.value];
    CarriedKept(history, entry.value, next);
    var repeated := Repeats(pass.tests, pass.reviews, carried.signature);
    end := FollowDecision(sha, a, start, next, repeated);
  }

  lemma LastIsNotAccepted(history: seq<Entry>)
    requires history != [] ==> history[|history| - 1].record.decision.ReviseIteration?
    ensures !EndsAccepted(history)
  {
  }

  /** One turn of the loop: the outcome of a pass either ends the run or adds one revised pass. */
  method TakeTurn(sha: Artifact -> nat, a: Approved, start: Commit, history: seq<Entry>, carried: Carried,
                  lastTests: seq<TestReport>, outcome: Outcome)
    returns (end: Option<RunEnd>, next: seq<Entry>)
    requires ValidApproved(a) && SoundHistory(sha, a, start, history)
    requires history != [] ==> history[|history| - 1].record.decision.ReviseIteration?
    requires carried == CarriedAt(history, |history|)
    requires lastTests == LastTests(history) && (lastTests != [] ==> Assembled(a, lastTests[0]))
    requires Delivers(a, |history| + 1, CommitAt(start, history, |history|), outcome)
    ensures end.Some? ==> SoundRun(sha, a, start, next, end.value)
    ensures if outcome.Finished? && Recordable(outcome.pass) then
              && |next| == |history| + 1 && next[..|history|] == history && next[|history|].pass == outcome.pass
              && SoundHistory(sha, a, start, next) && EndsOnDecision(sha, a, next, end)
            else next == history && end.Some? && EndsOnOutcome(sha, history, outcome, end.value)
  {
    hide SoundHistory, SoundRun, Recordable, Finishes, RefusalOf, Assembled, EndsOnDecision, FailedReport;
    hide RefusedReport;
    LastIsNotAccepted(history);
    if outcome.Finished? {
      end, next := FinishPass(sha, a, start, history, carried, outcome.complete, outcome.pass);
    } else if outcome.StoppedByUser? {
      StopIsSound(sha, a, start, history, outcome.commit);
      end, next := Some(UserStop(CancelledReport(sha, history, outcome.commit))), history;
    } else {
      var known := if outcome.tests != [] then outcome.tests else lastTests;
      assert known != [] ==> Assembled(a, known[0]);
      FailureIsSound(sha, a, start, history, outcome.reason, outcome.commit, known);
      end, next := Some(RunFailed(outcome.reason, FailedReport(sha, history, outcome.commit, known))), history;
    }
  }

  /** Where the loop stands before a pass. */
  ghost predicate Looping(sha: Artifact -> nat, a: Approved, runner: (nat, Commit) -> Outcome, start: Commit,
                          history: seq<Entry>, n: nat, input: Commit, carried: Carried, lastTests: seq<TestReport>) {
    && n == |history| + 1 <= a.limit
    && SoundHistory(sha, a, start, history)
    && (history != [] ==> history[|history| - 1].record.decision.ReviseIteration?)
    && input == CommitAt(start, history, |history|) && carried == CarriedAt(history, |history|)
    && lastTests == LastTests(history) && (lastTests != [] ==> Assembled(a, lastTests[0]))
    && forall i :: 0 <= i < |history| ==> Ran(runner, start, history, i)
  }

  lemma LoopStarts(sha: Artifact -> nat, a: Approved, runner: (nat, Commit) -> Outcome, start: Commit)
    requires ValidApproved(a)
    ensures Looping(sha, a, runner, start, [], 1, start, Carried(None, []), [])
  {
    hide SoundEntry, Assembled;
  }

  /** A revised pass leaves the loop before the next one. */
  lemma LoopGoesOn(sha: Artifact -> nat, a: Approved, runner: (nat, Commit) -> Outcome, start: Commit,
                   history: seq<Entry>, n: nat, input: Commit, carried: Carried, lastTests: seq<TestReport>,
                   next: seq<Entry>)
    requires Looping(sha, a, runner, start, history, n, input, carried, lastTests)
    requires |next| == |history| + 1 && next[..|history|] == history && SoundHistory(sha, a, start, next)
    requires runner(n, input).Finished? && runner(n, input).pass == next[|history|].pass
    requires next[|history|].record.decision.ReviseIteration?
    ensures var last := next[|history|];
            Looping(sha, a, runner, start, next, n + 1, last.pass.output,
                    Carried(Some(last.signature), BlockingIds(last.pass.reviews)), last.pass.tests)
  {
    hide SoundHistory, Assembled, BlockingIds;
    RanKept(runner, start, history, next);
    LastEntryAssembled(sha, a, start, next);
    RevisionLeavesRoom(sha, a, start, next);
  }

  /** The end that a turn of the loop found is the one the runner calls for. */
  lemma LoopEnds(sha: Artifact -> nat, a: Approved, runner: (nat, Commit) -> Outcome, start: Commit,
                 history: seq<Entry>, n: nat, input: Commit, carried: Carried, lastTests: seq<TestReport>,
                 next: seq<Entry>, end: RunEnd)
    requires Looping(sha, a, runner, start, history, n, input, carried, lastTests)
    requires var outcome := runner(n, input);
             if outcome.Finished? && Recordable(outcome.pass) then
               && |next| == |history| + 1 && next[..|history|] == history && next[|history|].pass == outcome.pass
               && EndsOnDecision(sha, a, next, Some(end))
             else next == history && EndsOnOutcome(sha, history, outcome, end)
    ensures FollowsRunner(sha, a, runner, start, next, end)
  {
    hide SoundHistory, Assembled, Recordable, FailedReport, RefusedReport, CancelledReport, TerminationOf, Repeats;
    if next != history { RanKept(runner, start, history, next); }
  }

  /** `_execute_approved_plan`. `runner` gives the outcome of each pass from its number and
      its commit; it may be any function within what the runner guarantees. */
  method ExecuteApprovedPlan(sha: Artifact -> nat, a: Approved, runner: (nat, Commit) -> Outcome, start: Commit)
    returns (end: RunEnd, history: seq<Entry>)
    requires ValidApproved(a)
    requires forall n: nat, input :: Delivers(a, n, input, runner(n, input))
    ensures SoundRun(sha, a, start, history, end)
    ensures FollowsRunner(sha, a, runner, start, history, end)
  {
    hide SoundHistory, SoundRun, FollowsRunner, Recordable, Assembled, BlockingIds, ValidApproved;
    hide EndsOnOutcome, Finishes;
    history := [];
    var n, input, carried, lastTests := 1, start, Carried(None, []), [];
    LoopStarts(sha, a, runner, start);
    while true
      invariant Looping(sha, a, runner, start, history, n, input, carried, lastTests)
      decreases a.limit - n
    {
      var outcome := runner(n, input);
      assert Delivers(a, n, input, outcome);
      var concluded, next := TakeTurn(sha, a, start, history, carried, lastTests, outcome);
      if concluded.Some? {
        LoopEnds(sha, a, runner, start, history, n, input, carried, lastTests, next, concluded.value);
        return concluded.value, next;
      }
      LoopGoesOn(sha, a, runner, start, history, n, input, carried, lastTests, next);
      var last := next[n - 1];
      n, input, lastTests := n + 1, last.pass.output, last.pass.tests;
      carried := Carried(Some(last.signature), BlockingIds(last.pass.reviews));
      history := next;
    }
  }
}
