/** Phase artifacts and the validators of their models (artifacts.py). Texts that
    only the validators compare are kept as small datatypes of their parts. */
module Evidence {
  import opened Prelude

  datatype CriterionId = CriterionId(name: string)
  datatype CommandId = CommandId(name: string)
  datatype FindingId = FindingId(name: string)
  datatype Commit = Commit(hash: string)
  datatype Text = Text(body: string)
  datatype AgentId = Controller | Agent(name: string)

  datatype CheckStatus = Passed | Failed | Blocked | PendingReview

  // -------------------------------------------------------------- references

  datatype Kind =
    | PlanKind | WorkKind | TestKind | ReviewKind | RecordKind | FinalKind | HandoffKind | ExecutionKind

  /** Canonical run-relative paths, by the parts they are rendered from. */
  datatype Path =
    | PlanPath
    | FinalReportPath
    | RecordPath(iteration: nat)
    | AgentPath(iteration: nat, producer: AgentId, kind: Kind)
    | HandoffPath(iteration: nat, stage: string, sequence: nat, source: AgentId, target: AgentId)
    | ExecutionPath(iteration: nat, stage: string, agent: AgentId, attempt: nat)
    | OutputPath(iteration: nat, stage: string, agent: AgentId, attempt: nat, isError: bool)
    | OtherPath(name: string)

  datatype Reference = Reference(kind: Kind, path: Path, digest: nat)

  function PathsOf(references: seq<Reference>): seq<Path> {
    seq(|references|, i requires 0 <= i < |references| => references[i].path)
  }

  predicate AllOfKind(references: seq<Reference>, kind: Kind) {
    forall i :: 0 <= i < |references| ==> references[i].kind == kind
  }

  // ------------------------------------------------------------- test reports

  /** A timed-out command has no exit code; a completed one has. */
  datatype Exit = TimedOut | Exited(code: int)

  datatype CommandEvidence = CommandEvidence(id: CommandId, criteria: seq<CriterionId>, exit: Exit)

  predicate ValidCommand(c: CommandEvidence) {
    Distinct(c.criteria)
  }

  predicate Succeeded(c: CommandEvidence) {
    c.exit == Exited(0)
  }

  datatype Detail =
    | CommandsTimedOut(ids: seq<CommandId>)
    | CommandsFailed(ids: seq<CommandId>)
    | EvidencePassedReviewPending
    | AssignedToReview
    | CommandsPassed(ids: seq<CommandId>)
    | ReviewAccepted(before: Detail)

  datatype CriterionResult = CriterionResult(
    id: CriterionId, status: CheckStatus, commands: seq<CommandId>, detail: Detail)

  datatype Reason =
    | CommandTimedOut(command: CommandId)
    | CommandFailed(command: CommandId, code: int)
    | TesterAnalysis(finding: Text)
    | TesterStatus(tester: AgentId, status: CheckStatus)
    | OtherReason(text: Text)

  datatype TestReport = TestReport(
    producer: AgentId,
    iteration: nat,
    inputCommit: Commit,
    status: CheckStatus,
    commands: seq<CommandEvidence>,
    criteria: seq<CriterionResult>,
    manual: seq<CriterionId>,
    findings: seq<Text>,
    blockers: seq<Reason>)

  function CommandIds(commands: seq<CommandEvidence>): (ids: seq<CommandId>)
    ensures |ids| == |commands|
    ensures forall i :: 0 <= i < |commands| ==> ids[i] == commands[i].id
  {
    seq(|commands|, i requires 0 <= i < |commands| => commands[i].id)
  }

  function CriterionIds(criteria: seq<CriterionResult>): (ids: seq<CriterionId>)
    ensures |ids| == |criteria|
    ensures forall i :: 0 <= i < |criteria| ==> ids[i] == criteria[i].id
  {
    seq(|criteria|, i requires 0 <= i < |criteria| => criteria[i].id)
  }

  predicate CommandsPass(commands: seq<CommandEvidence>) {
    forall i :: 0 <= i < |commands| ==> Succeeded(commands[i])
  }

  predicate CoverageDeclared(commands: seq<CommandEvidence>) {
    forall i :: 0 <= i < |commands| ==> commands[i].criteria != []
  }

  /** Criterion `r` names known commands, which cover it when coverage is declared. */
  predicate CommandsCited(t: TestReport, r: CriterionResult) {
    forall i :: 0 <= i < |r.commands| ==>
      exists j :: 0 <= j < |t.commands| && t.commands[j].id == r.commands[i]
                  && (CoverageDeclared(t.commands) ==> r.id in t.commands[j].criteria)
  }

  predicate InTesterScope(t: TestReport, r: CriterionResult) {
    r.status.Passed? || (r.id in t.manual && r.status.PendingReview?)
  }

  predicate TesterScopePassed(t: TestReport) {
    forall i :: 0 <= i < |t.criteria| ==> InTesterScope(t, t.criteria[i])
  }

  predicate SomeCriterion(t: TestReport, status: CheckStatus) {
    exists i :: 0 <= i < |t.criteria| && t.criteria[i].status == status
  }

  predicate ReviewBoundaryKept(t: TestReport, r: CriterionResult) {
    && (r.status.PendingReview? ==> r.id in t.manual)
    && (r.id in t.manual ==> !r.status.Passed?)
  }

  predicate StatusMatchesEvidence(t: TestReport) {
    match t.status
    case Passed => CommandsPass(t.commands) && TesterScopePassed(t) && t.blockers == []
    case Blocked => t.blockers != [] && SomeCriterion(t, Blocked)
    case Failed => SomeCriterion(t, Failed) && !(CommandsPass(t.commands) && TesterScopePassed(t))
    case PendingReview => false
  }

  /** The field validators of `TestReport` and its `validate_evidence`. */
  predicate ValidTestReport(t: TestReport) {
    && t.commands != [] && t.criteria != []
    && Distinct(t.manual) && Distinct(t.findings) && Distinct(t.blockers)
    && (forall i :: 0 <= i < |t.commands| ==> ValidCommand(t.commands[i]))
    && (forall i :: 0 <= i < |t.criteria| ==> Distinct(t.criteria[i].commands))
    && Distinct(CommandIds(t.commands))
    && Distinct(CriterionIds(t.criteria))
    && (forall i :: 0 <= i < |t.criteria| ==> CommandsCited(t, t.criteria[i]))
    && (forall i :: 0 <= i < |t.manual| ==> t.manual[i] in CriterionIds(t.criteria))
    && (forall i :: 0 <= i < |t.criteria| ==> ReviewBoundaryKept(t, t.criteria[i]))
    && StatusMatchesEvidence(t)
  }

  // ----------------------------------------------------------- review reports

  datatype Severity = Critical | High | Medium | Low
  datatype Verdict = Accept | Revise | Fail
  datatype ReviewTermination = SafetyBoundary | EvidenceIntegrity

  datatype Finding = Finding(
    id: FindingId, severity: Severity, blocking: bool, description: Text, criteria: seq<CriterionId>)

  predicate ValidFinding(f: Finding) {
    (f.severity.Critical? ==> f.blocking) && Distinct(f.criteria)
  }

  datatype Assessment = Assessment(criterion: CriterionId, blocked: bool)

  datatype ReviewReport = ReviewReport(
    producer: AgentId,
    iteration: nat,
    inputCommit: Commit,
    verdict: Verdict,
    termination: Option<ReviewTermination>,
    reviewed: seq<CriterionId>,
    assessments: seq<Assessment>,
    findings: seq<Finding>)

  function FindingIds(findings: seq<Finding>): (ids: seq<FindingId>)
    ensures |ids| == |findings|
    ensures forall i :: 0 <= i < |findings| ==> ids[i] == findings[i].id
  {
    seq(|findings|, i requires 0 <= i < |findings| => findings[i].id)
  }

  function AssessedIds(assessments: seq<Assessment>): (ids: seq<CriterionId>)
    ensures |ids| == |assessments|
    ensures forall i :: 0 <= i < |assessments| ==> ids[i] == assessments[i].criterion
  {
    seq(|assessments|, i requires 0 <= i < |assessments| => assessments[i].criterion)
  }

  predicate HasBlocking(findings: seq<Finding>) {
    exists i :: 0 <= i < |findings| && findings[i].blocking
  }

  predicate HasCritical(findings: seq<Finding>) {
    exists i :: 0 <= i < |findings| && findings[i].severity.Critical?
  }

  predicate BlockedByFinding(findings: seq<Finding>, c: CriterionId) {
    exists i :: 0 <= i < |findings| && findings[i].blocking && c in findings[i].criteria
  }

  predicate BlockedByAssessment(assessments: seq<Assessment>, c: CriterionId) {
    exists i :: 0 <= i < |assessments| && assessments[i].blocked && assessments[i].criterion == c
  }

  /** The two ways of naming blocked criteria agree. */
  predicate BlockedCriteriaAgree(r: ReviewReport) {
    && (forall i :: 0 <= i < |r.assessments| && r.assessments[i].blocked
          ==> BlockedByFinding(r.findings, r.assessments[i].criterion))
    && (forall i, j :: 0 <= i < |r.findings| && r.findings[i].blocking && 0 <= j < |r.findings[i].criteria|
          ==> BlockedByAssessment(r.assessments, r.findings[i].criteria[j]))
  }

  predicate SomeBlockedAssessment(assessments: seq<Assessment>) {
    exists i :: 0 <= i < |assessments| && assessments[i].blocked
  }

  /** `ReviewReport.validate_verdict`. */
  predicate ValidReviewReport(r: ReviewReport) {
    && Distinct(r.reviewed)
    && (forall i :: 0 <= i < |r.findings| ==> ValidFinding(r.findings[i]))
    && Distinct(FindingIds(r.findings))
    && Distinct(AssessedIds(r.assessments))
    && (r.assessments != [] ==>
          && Elements(AssessedIds(r.assessments)) == Elements(r.reviewed)
          && BlockedCriteriaAgree(r)
          && (r.verdict.Accept? <==> !SomeBlockedAssessment(r.assessments)))
    && (r.verdict.Accept? ==> !HasBlocking(r.findings))
    && (r.verdict.Revise? ==> HasBlocking(r.findings))
    && (r.verdict.Fail? ==> HasCritical(r.findings))
    && (!r.verdict.Fail? ==> r.termination.None?)
  }

  // ----------------------------------------------------- work, records, reports

  datatype WorkResult = WorkResult(
    producer: AgentId, iteration: nat, inputCommit: Commit, outputCommit: Commit, changesFiles: bool)

  predicate ValidWorkResult(w: WorkResult) {
    w.changesFiles <==> w.inputCommit != w.outputCommit
  }

  datatype IterationDecision = AcceptIteration | ReviseIteration | FailIteration

  datatype IterationRecord = IterationRecord(
    iteration: nat,
    inputCommit: Commit,
    outputCommit: Commit,
    plan: Option<Reference>,
    planDigest: Option<nat>,
    works: seq<Reference>,
    tests: seq<Reference>,
    reviews: seq<Reference>,
    decision: IterationDecision,
    blockingIds: seq<FindingId>,
    blockingReasons: seq<Reason>,
    resolvedIds: seq<FindingId>)

  /** `IterationRecord.validate_decision`. */
  predicate ValidRecord(r: IterationRecord) {
    && !(r.plan.Some? && r.planDigest.Some?)
    && (r.plan.Some? ==> r.plan.value.kind.PlanKind?)
    && r.works != [] && r.tests != []
    && AllOfKind(r.works, WorkKind) && AllOfKind(r.tests, TestKind) && AllOfKind(r.reviews, ReviewKind)
    && Distinct(PathsOf(r.works)) && Distinct(PathsOf(r.tests)) && Distinct(PathsOf(r.reviews))
    && Distinct(r.blockingIds) && Distinct(r.blockingReasons) && Distinct(r.resolvedIds)
    && r.inputCommit != r.outputCommit
    && (r.decision.AcceptIteration? <==> r.blockingIds == [] && r.blockingReasons == [])
    && (forall i :: 0 <= i < |r.blockingIds| ==> r.blockingIds[i] !in r.resolvedIds)
  }

  datatype FinalStatus = CompletedRun | FailedRun | CancelledRun

  datatype FinalReport = FinalReport(
    status: FinalStatus,
    finalCommit: Option<Commit>,
    iterations: seq<Reference>,
    acceptance: seq<CriterionResult>)

  /** `FinalReport.validate_final_report`. */
  predicate ValidFinalReport(f: FinalReport) {
    && AllOfKind(f.iterations, RecordKind)
    && Distinct(PathsOf(f.iterations))
    && Distinct(CriterionIds(f.acceptance))
    && (f.status.CompletedRun? ==>
          && f.finalCommit.Some? && f.iterations != [] && f.acceptance != []
          && forall i :: 0 <= i < |f.acceptance| ==> f.acceptance[i].status.Passed?)
  }

  // ------------------------------------------------- handoffs and execution records

  datatype HandoffStatus = CompletedHandoff | BlockedHandoff | FailedHandoff

  datatype Handoff = Handoff(
    iteration: nat, stage: string, sequence: nat, source: AgentId, target: AgentId,
    status: HandoffStatus, artifacts: seq<Reference>)

  datatype Execution = Execution(
    iteration: nat, stage: string, agent: AgentId, attempt: nat,
    stdoutPath: Path, stderrPath: Path, stdoutDigest: nat, stderrDigest: nat,
    response: Option<Reference>)

  datatype Plan = Plan(producer: AgentId, owners: seq<AgentId>, covered: seq<CriterionId>)

  datatype Artifact =
    | PlanArtifact(plan: Plan)
    | WorkArtifact(work: WorkResult)
    | TestArtifact(test: TestReport)
    | ReviewArtifact(review: ReviewReport)
    | RecordArtifact(record: IterationRecord)
    | FinalArtifact(final: FinalReport)
    | HandoffArtifact(handoff: Handoff)
    | ExecutionArtifact(execution: Execution)

  function KindOf(a: Artifact): Kind {
    match a
    case PlanArtifact(_) => PlanKind
    case WorkArtifact(_) => WorkKind
    case TestArtifact(_) => TestKind
    case ReviewArtifact(_) => ReviewKind
    case RecordArtifact(_) => RecordKind
    case FinalArtifact(_) => FinalKind
    case HandoffArtifact(_) => HandoffKind
    case ExecutionArtifact(_) => ExecutionKind
  }

  /** `_artifact_path`. */
  function CanonicalPath(a: Artifact): Path {
    match a
    case PlanArtifact(_) => PlanPath
    case WorkArtifact(w) => AgentPath(w.iteration, w.producer, WorkKind)
    case TestArtifact(t) => AgentPath(t.iteration, t.producer, TestKind)
    case ReviewArtifact(r) => AgentPath(r.iteration, r.producer, ReviewKind)
    case RecordArtifact(r) => RecordPath(r.iteration)
    case FinalArtifact(_) => FinalReportPath
    case HandoffArtifact(h) => HandoffPath(h.iteration, h.stage, h.sequence, h.source, h.target)
    case ExecutionArtifact(e) => ExecutionPath(e.iteration, e.stage, e.agent, e.attempt)
  }

  /** What `write` returns for an artifact whose serialized form has digest `sha(a)`. */
  function ReferenceTo(sha: Artifact -> nat, a: Artifact): Reference {
    Reference(KindOf(a), CanonicalPath(a), sha(a))
  }
}
