/** The invocation loop of one Agent (dynamic_runner.py, `_invoke_agent`): stream
    retries, provider fallback, same-session continuation and semantic correction.
    What the provider, the workspace and the response parser do in each attempt is
    arbitrary; the controller's choices between attempts are modelled in full. */
module AttemptLoop {
  import opened Prelude

  datatype Reason =
    | DependencyUnavailable | ResourceLimitReached | UserInterrupted | ArtifactInvalid
    | ExecutionFailed | SafetyBoundaryCrossed | OtherReason

  datatype Status =
    | Completed | ProcessFailed | ProviderFailed | ProviderStalled | InitializationStalled
    | ResponseFinalizationStalled | TimedOut | UpstreamIncomplete | InvalidResponse | LaunchFailed | Interrupted

  /** `_execution_termination_reason`. */
  function ReasonFor(status: Status): Reason {
    match status
    case TimedOut => ResourceLimitReached
    case Interrupted => UserInterrupted
    case LaunchFailed | InitializationStalled | ResponseFinalizationStalled => DependencyUnavailable
    case ProviderFailed | ProviderStalled | UpstreamIncomplete => DependencyUnavailable
    case InvalidResponse => ArtifactInvalid
    case Completed | ProcessFailed => ExecutionFailed
  }

  datatype DiagnosticCode =
    | ToolEvidenceUnavailable | SubmissionMissing | IncompleteAfterToolResult | IncompleteAfterTerminalResponse
    | OtherCode

  predicate Recoverable(code: DiagnosticCode) {
    !code.OtherCode?
  }

  datatype SubmissionEvidence = SubmissionEvidence(missing: bool, code: DiagnosticCode, hasToolCall: bool)

  datatype ToolCall = ToolCall(isSubmission: bool, digest: nat)

  /** Everything the loop reads from one execution result. */
  datatype Result = Result(
    status: Status,
    streamTerminated: bool,
    hasSubmission: bool,
    evidence: Option<SubmissionEvidence>,
    cleanupCompleted: Option<bool>,      // None: no invocation lifecycle
    terminalResponse: bool,
    toolsCaptured: bool,
    hasTranscript: bool,
    sessionId: Option<nat>,
    toolCalls: seq<ToolCall>)

  /** An exception: the runner's own carries a termination reason. */
  datatype Failure = RunnerError(reason: Reason) | OtherError

  datatype Response =
    | Accepted
    | Rejected(failure: Failure, correctable: bool)   // correctable: a correction plan was built

  /** One attempt as the environment decides it. `verification` is an exception from
      the result or workspace checks; `workspaceState` is None without progress. */
  datatype Attempt = Attempt(
    stopRequested: Option<Reason>,
    reservationRefused: bool,
    result: Result,
    verification: Option<Failure>,
    workspaceState: Option<nat>,
    response: Response,
    budgetRejected: bool,
    writerRefused: bool)

  datatype Config = Config(
    writer: bool,
    hasContract: bool,
    routes: nat,
    providerSwitching: bool,
    repairLimit: Option<nat>)

  predicate ValidConfig(c: Config) {
    c.routes >= 1 && (c.repairLimit.Some? ==> c.repairLimit.value <= 1)
  }

  /** Execution outputs are stored under a two-digit attempt number. */
  const MAX_STORED_ATTEMPT: nat := 99

  datatype Outcome =
    | Returned
    | Stopped(reason: Reason)
    | AdmissionRefused
    | ModesOverlap
    | BudgetRejected
    | EvidenceRefused
    | Raised(failure: Failure)

  /** The loop's own variables. */
  datatype State = State(
    attempt: nat,
    routeIndex: nat,
    streamRetries: nat,
    corrections: nat,
    correcting: bool,
    continuing: bool,
    readOnlySession: Option<nat>,
    seenStates: set<nat>,
    seenTools: set<seq<nat>>)

  const FIRST := State(1, 0, 0, 0, false, false, None, {}, {})

  predicate StreamRecoverable(s: State, r: Result) {
    && s.streamRetries < 1
    && r.status.ProviderFailed?
    && r.streamTerminated
    && !r.hasSubmission
    && r.evidence.Some? && !r.evidence.value.hasToolCall && Recoverable(r.evidence.value.code)
    && r.cleanupCompleted == Some(true)
  }

  predicate SafeFallback(r: Result) {
    && r.status.ProviderFailed?
    && !r.hasSubmission
    && r.evidence.Some? && Recoverable(r.evidence.value.code)
    && r.cleanupCompleted != Some(false)
  }

  predicate SafeReadOnlyContinuation(c: Config, s: State, r: Result) {
    && r.status.UpstreamIncomplete?
    && !s.correcting
    && !r.hasSubmission
    && r.evidence.Some? && r.evidence.value.missing && !r.evidence.value.hasToolCall
    && r.evidence.value.code.IncompleteAfterTerminalResponse?
    && r.toolsCaptured && r.hasTranscript && r.sessionId.Some? && r.toolCalls != []
    && c.hasContract
    && (forall i :: 0 <= i < |r.toolCalls| ==> !r.toolCalls[i].isSubmission)
    && r.cleanupCompleted == Some(true) && r.terminalResponse
  }

  function ToolState(r: Result): seq<nat> {
    seq(|r.toolCalls|, i requires 0 <= i < |r.toolCalls| => r.toolCalls[i].digest)
  }

  /** What one attempt leaves for the decision that follows it. */
  datatype Disposition = Disposition(
    failure: Option<Failure>,
    accepted: bool,
    correctable: bool,
    continueWriter: bool,
    continueReadOnly: bool,
    seenStates: set<nat>,
    seenTools: set<seq<nat>>)

  function Failing(s: State, f: Failure): Disposition {
    Disposition(Some(f), false, false, false, false, s.seenStates, s.seenTools)
  }

  /** `_classify_incomplete_attempt`, once its workspace checks have passed. */
  function ClassifyIncomplete(c: Config, s: State, a: Attempt): Disposition {
    var r := a.result;
    var failing := Failing(s, RunnerError(ReasonFor(r.status)));
    if c.writer then
      if r.status.UpstreamIncomplete? && !s.correcting then
        if a.workspaceState.None? || a.workspaceState.value in s.seenStates then
          Failing(s, RunnerError(DependencyUnavailable))
        else
          failing.(failure := None, continueWriter := true, seenStates := s.seenStates + {a.workspaceState.value})
      else if StreamRecoverable(s, r) && !s.correcting && a.workspaceState.Some? then
        failing.(continueWriter := true, seenStates := s.seenStates + {a.workspaceState.value})
      else failing
    else if SafeReadOnlyContinuation(c, s, r) then
      if ToolState(r) in s.seenTools then Failing(s, RunnerError(DependencyUnavailable))
      else failing.(failure := None, continueReadOnly := true, seenTools := s.seenTools + {ToolState(r)})
    else failing
  }

  function Judge(c: Config, s: State, a: Attempt): Disposition {
    var r := a.result;
    if a.verification.Some? then Failing(s, a.verification.value)
    else if s.readOnlySession.Some? && r.sessionId != s.readOnlySession then
      Failing(s, RunnerError(SafetyBoundaryCrossed))
    else if r.status.Interrupted? then Failing(s, RunnerError(UserInterrupted))
    else if !r.status.Completed? then ClassifyIncomplete(c, s, a)
    else
      match a.response
      case Accepted => Disposition(None, true, false, false, false, s.seenStates, s.seenTools)
      case Rejected(f, correctable) => Failing(s, f).(correctable := correctable)
  }

  /** The measure of what the controller may still spend on further attempts. */
  function Allowance(c: Config, s: State, states: set<nat>, tools: set<seq<nat>>): int
    requires c.repairLimit.Some?
  {
    (1 - s.streamRetries) + (c.routes - 1 - s.routeIndex) + (c.repairLimit.value - s.corrections)
    + |states - s.seenStates| + |tools - s.seenTools|
  }

  ghost predicate LoopState(c: Config, s: State) {
    && s.routeIndex < c.routes
    && s.streamRetries <= 1
    && (c.repairLimit.Some? ==> s.corrections <= c.repairLimit.value)
    && !(s.correcting && (s.continuing || s.readOnlySession.Some?))
  }

  ghost predicate Observed(a: Attempt, states: set<nat>, tools: set<seq<nat>>) {
    && (a.workspaceState.Some? ==> a.workspaceState.value in states)
    && ToolState(a.result) in tools
  }

  lemma FewerUnseen<T>(universe: set<T>, seen: set<T>, x: T)
    requires x in universe && x !in seen
    ensures |universe - (seen + {x})| == |universe - seen| - 1
  {
    assert universe - (seen + {x}) == (universe - seen) - {x};
  }

  lemma NotMoreUnseen<T>(universe: set<T>, seen: set<T>, x: T)
    ensures |universe - (seen + {x})| <= |universe - seen|
  {
    if x in universe && x !in seen {
      FewerUnseen(universe, seen, x);
    } else {
      assert universe - (seen + {x}) == universe - seen;
    }
  }

  datatype Decision = Again(next: State) | End(outcome: Outcome)

  /** The choice after a persisted attempt, in the source's order. */
  function Decide(c: Config, s: State, a: Attempt): Decision {
    var d := Judge(c, s, a);
    var recoverable := StreamRecoverable(s, a.result);
    var onward := s.(attempt := s.attempt + 1, continuing := false, readOnlySession := None,
                    seenStates := d.seenStates, seenTools := d.seenTools);
    var dependency := d.failure == Some(RunnerError(DependencyUnavailable));
    if a.budgetRejected then End(if d.failure.Some? then Raised(d.failure.value) else BudgetRejected)
    else if d.accepted then
      End(if c.writer && a.writerRefused then Raised(RunnerError(SafetyBoundaryCrossed)) else Returned)
    else if d.continueWriter then
      Again(onward.(streamRetries := s.streamRetries + (if recoverable then 1 else 0), continuing := true))
    else if d.continueReadOnly then Again(onward.(readOnlySession := a.result.sessionId))
    else if recoverable && dependency then Again(onward.(streamRetries := s.streamRetries + 1))
    else if SafeFallback(a.result) && c.providerSwitching && s.routeIndex + 1 < c.routes && dependency then
      Again(onward.(routeIndex := s.routeIndex + 1))
    else if d.correctable && (c.repairLimit.None? || s.corrections < c.repairLimit.value) then
      Again(onward.(corrections := s.corrections + 1, correcting := true))
    else End(Raised(if d.failure.Some? then d.failure.value else RunnerError(ExecutionFailed)))
  }

  /** Judging an attempt adds at most its own states, and a new one for a continuation that is no stream retry. */
  lemma JudgedStates(c: Config, s: State, a: Attempt)
    ensures var d := Judge(c, s, a);
            && (d.seenStates == s.seenStates
                || (a.workspaceState.Some? && d.seenStates == s.seenStates + {a.workspaceState.value}))
            && (d.seenTools == s.seenTools || d.seenTools == s.seenTools + {ToolState(a.result)})
            && (d.continueWriter && !StreamRecoverable(s, a.result) ==>
                  && a.workspaceState.Some? && a.workspaceState.value !in s.seenStates
                  && d.seenStates == s.seenStates + {a.workspaceState.value})
            && (d.continueReadOnly ==>
                  ToolState(a.result) !in s.seenTools && d.seenTools == s.seenTools + {ToolState(a.result)})
  {
    hide StreamRecoverable, SafeReadOnlyContinuation, ToolState, ReasonFor;
  }

  lemma JudgingAdds(c: Config, s: State, a: Attempt, states: set<nat>, tools: set<seq<nat>>)
    requires Observed(a, states, tools)
    ensures var d := Judge(c, s, a);
            && |states - d.seenStates| <= |states - s.seenStates| && |tools - d.seenTools| <= |tools - s.seenTools|
            && (d.continueWriter && !StreamRecoverable(s, a.result) ==>
                  |states - d.seenStates| < |states - s.seenStates|)
            && (d.continueReadOnly ==> |tools - d.seenTools| < |tools - s.seenTools|)
  {
    hide Judge, StreamRecoverable, ToolState;
    var d := Judge(c, s, a);
    JudgedStates(c, s, a);
    if a.workspaceState.Some? {
      NotMoreUnseen(states, s.seenStates, a.workspaceState.value);
      if a.workspaceState.value !in s.seenStates { FewerUnseen(states, s.seenStates, a.workspaceState.value); }
    }
    NotMoreUnseen(tools, s.seenTools, ToolState(a.result));
    if ToolState(a.result) !in s.seenTools { FewerUnseen(tools, s.seenTools, ToolState(a.result)); }
  }

  /** Every repetition is paid for: by the one stream retry, a remaining route, an
      allowed correction, or a workspace or tool state not seen before. */
  lemma RepetitionSpendsAllowance(c: Config, s: State, a: Attempt, states: set<nat>, tools: set<seq<nat>>)
    requires ValidConfig(c) && c.repairLimit.Some? && LoopState(c, s) && Observed(a, states, tools)
    requires Decide(c, s, a).Again?
    ensures Allowance(c, Decide(c, s, a).next, states, tools) < Allowance(c, s, states, tools)
  {
    hide Judge, StreamRecoverable, SafeFallback, Observed;
    JudgingAdds(c, s, a, states, tools);
  }

  /** What each kind of repetition presupposes, and that no two kinds are mixed. */
  lemma RepetitionHasOneCause(c: Config, s: State, a: Attempt)
    requires LoopState(c, s) && Decide(c, s, a).Again?
    ensures var next, r := Decide(c, s, a).next, a.result;
            && !a.budgetRejected && next.attempt == s.attempt + 1
            && (next.routeIndex, next.streamRetries, next.corrections)
               in {(s.routeIndex, s.streamRetries, s.corrections), (s.routeIndex + 1, s.streamRetries, s.corrections),
                   (s.routeIndex, s.streamRetries + 1, s.corrections),
                   (s.routeIndex, s.streamRetries, s.corrections + 1)}
            && (next.routeIndex > s.routeIndex ==>
                  c.providerSwitching && r.status.ProviderFailed? && !r.hasSubmission && !next.continuing
                  && next.seenStates == s.seenStates && next.seenTools == s.seenTools)
            && (next.streamRetries > s.streamRetries ==>
                  r.status.ProviderFailed? && !r.hasSubmission && r.cleanupCompleted == Some(true))
            && (next.corrections > s.corrections ==>
                  r.status.Completed? && a.response.Rejected? && a.response.correctable && !next.continuing
                  && next.readOnlySession.None?)
            && (next.continuing ==> c.writer && a.workspaceState.Some? && a.workspaceState.value in next.seenStates)
            && (next.readOnlySession.Some? ==>
                  !c.writer && !r.hasSubmission && next.readOnlySession == r.sessionId
                  && ToolState(r) !in s.seenTools && ToolState(r) in next.seenTools)
            && (r.hasSubmission ==>
                  next.corrections == s.corrections + 1 || (c.writer && r.status.UpstreamIncomplete?))
  {
  }

  lemma RepetitionKeepsLoopState(c: Config, s: State, a: Attempt)
    requires ValidConfig(c) && LoopState(c, s) && Decide(c, s, a).Again?
    ensures LoopState(c, Decide(c, s, a).next)
    ensures Decide(c, s, a).next.attempt == s.attempt + 1
  {
  }

  /** One turn of the loop: its checks before the provider call, the call, and the choice after it. */
  function Turn(c: Config, s: State, a: Attempt): Decision {
    if a.stopRequested.Some? then End(Stopped(a.stopRequested.value))
    else if (s.continuing || s.readOnlySession.Some?) && s.correcting then End(ModesOverlap)
    else if a.reservationRefused then End(AdmissionRefused)
    else if s.attempt > MAX_STORED_ATTEMPT then End(EvidenceRefused)
    else Decide(c, s, a)
  }

  /** Whether the turn got as far as calling the provider. */
  predicate Calls(s: State, a: Attempt) {
    a.stopRequested.None? && !((s.continuing || s.readOnlySession.Some?) && s.correcting) && !a.reservationRefused
  }

  /** The loop's variables after `k` repetitions. */
  function StateAfter(c: Config, environment: nat -> Attempt, k: nat): State {
    if k == 0 then FIRST
    else
      var s := StateAfter(c, environment, k - 1);
      match Turn(c, s, environment(k)) case Again(next) => next case End(_) => s
  }

  predicate Repeats(c: Config, environment: nat -> Attempt, k: nat) {
    Turn(c, StateAfter(c, environment, k), environment(k + 1)).Again?
  }

  /** The loop ends in its first turn that does not repeat, with that turn's outcome. */
  ghost predicate EndsAfter(c: Config, environment: nat -> Attempt, k: nat, outcome: Outcome, calls: nat) {
    && (forall j: nat :: j < k ==> Repeats(c, environment, j))
    && var s, a := StateAfter(c, environment, k), environment(k + 1);
       Turn(c, s, a) == End(outcome) && calls == k + if Calls(s, a) then 1 else 0
  }

  lemma TurnRepeats(c: Config, s: State, a: Attempt, states: set<nat>, tools: set<seq<nat>>)
    requires ValidConfig(c) && LoopState(c, s) && Turn(c, s, a).Again?
    ensures LoopState(c, Turn(c, s, a).next) && Turn(c, s, a).next.attempt == s.attempt + 1 <= MAX_STORED_ATTEMPT + 1
    ensures c.repairLimit.Some? && Observed(a, states, tools) ==>
              Allowance(c, Turn(c, s, a).next, states, tools) < Allowance(c, s, states, tools)
  {
    RepetitionKeepsLoopState(c, s, a);
    if c.repairLimit.Some? && Observed(a, states, tools) { RepetitionSpendsAllowance(c, s, a, states, tools); }
  }

  lemma TurnEnds(c: Config, s: State, a: Attempt)
    requires LoopState(c, s) && Turn(c, s, a).End?
    ensures var outcome := Turn(c, s, a).outcome;
            && outcome != ModesOverlap
            && (outcome.Returned? ==> Calls(s, a) && a.response.Accepted? && a.result.status.Completed?)
            && (outcome.EvidenceRefused? ==> Calls(s, a) && s.attempt > MAX_STORED_ATTEMPT)
  {
  }

  lemma AllowanceIsNatural(c: Config, s: State, states: set<nat>, tools: set<seq<nat>>)
    requires c.repairLimit.Some? && LoopState(c, s)
    ensures Allowance(c, s, states, tools) >= 0
  {
  }

  /** Repetitions keep the loop's modes apart and count attempts. */
  lemma {:induction false} RepetitionsKeepState(c: Config, environment: nat -> Attempt, k: nat)
    requires ValidConfig(c) && forall j: nat :: j < k ==> Repeats(c, environment, j)
    ensures LoopState(c, StateAfter(c, environment, k))
    ensures StateAfter(c, environment, k).attempt == k + 1 <= MAX_STORED_ATTEMPT + 1
  {
    if k == 0 {
    } else {
      RepetitionsKeepState(c, environment, k - 1);
      assert Repeats(c, environment, k - 1);
      TurnRepeats(c, StateAfter(c, environment, k - 1), environment(k), {}, {});
    }
  }

  function AllowanceAfter(c: Config, environment: nat -> Attempt, k: nat, states: set<nat>, tools: set<seq<nat>>): int
    requires c.repairLimit.Some?
  {
    Allowance(c, StateAfter(c, environment, k), states, tools)
  }

  lemma RepeatSpends(c: Config, environment: nat -> Attempt, k: nat, states: set<nat>, tools: set<seq<nat>>)
    requires ValidConfig(c) && c.repairLimit.Some? && forall j: nat :: j <= k ==> Repeats(c, environment, j)
    requires Observed(environment(k + 1), states, tools)
    ensures AllowanceAfter(c, environment, k + 1, states, tools) < AllowanceAfter(c, environment, k, states, tools)
  {
    RepetitionsKeepState(c, environment, k);
    assert Repeats(c, environment, k);
    TurnRepeats(c, StateAfter(c, environment, k), environment(k + 1), states, tools);
  }

  lemma {:induction false} StrictDescent(f: nat -> int, k: nat)
    requires forall i: nat, j: nat :: j == i + 1 <= k ==> f(j) < f(i)
    ensures k + f(k) <= f(0)
  {
    if k == 0 {
    } else {
      StrictDescent(f, k - 1);
      assert f(k) < f(k - 1);
    }
  }

  /** Repetitions use up the allowance. */
  lemma RepetitionsSpendAllowance(c: Config, environment: nat -> Attempt, k: nat, states: set<nat>,
                                  tools: set<seq<nat>>)
    requires ValidConfig(c) && c.repairLimit.Some? && forall j: nat :: j < k ==> Repeats(c, environment, j)
    requires forall n: nat :: Observed(environment(n), states, tools)
    ensures k + AllowanceAfter(c, environment, k, states, tools) <= AllowanceAfter(c, environment, 0, states, tools)
  {
    hide Observed, Repeats, AllowanceAfter, ValidConfig;
    var f := (n: nat) => AllowanceAfter(c, environment, n, states, tools);
    forall i: nat, j: nat | j == i + 1 <= k ensures f(j) < f(i) {
      assert Observed(environment(j), states, tools);
      RepeatSpends(c, environment, i, states, tools);
    }
    StrictDescent(f, k);
  }

  lemma FirstAllowance(c: Config, environment: nat -> Attempt, states: set<nat>, tools: set<seq<nat>>)
    requires c.repairLimit.Some?
    ensures AllowanceAfter(c, environment, 0, states, tools) == c.routes + c.repairLimit.value + |states| + |tools|
  {
    assert states - {} == states && tools - {} == tools;
  }

  /** Every ending of the loop, with its bounds. */
  lemma EndingsAreBounded(c: Config, environment: nat -> Attempt, k: nat, outcome: Outcome, calls: nat,
                          states: set<nat>, tools: set<seq<nat>>)
    requires ValidConfig(c) && EndsAfter(c, environment, k, outcome, calls)
    ensures calls <= MAX_STORED_ATTEMPT + 1
    ensures c.repairLimit.Some? && (forall n: nat :: Observed(environment(n), states, tools)) ==>
              calls <= 1 + 1 + (c.routes - 1) + c.repairLimit.value + |states| + |tools|
    ensures outcome != ModesOverlap
    ensures outcome.Returned? ==> calls >= 1 && environment(calls).response.Accepted?
                                  && environment(calls).result.status.Completed?
    ensures outcome.EvidenceRefused? ==> calls == MAX_STORED_ATTEMPT + 1
  {
    var s := StateAfter(c, environment, k);
    RepetitionsKeepState(c, environment, k);
    TurnEnds(c, s, environment(k + 1));
    if c.repairLimit.Some? && forall n: nat :: Observed(environment(n), states, tools) {
      RepetitionsSpendAllowance(c, environment, k, states, tools);
      AllowanceIsNatural(c, s, states, tools);
      FirstAllowance(c, environment, states, tools);
    }
  }

  /** The body of the loop: its checks, the call and the choice after it. */
  method TakeTurn(c: Config, s: State, a: Attempt) returns (decision: Decision, called: bool)
    ensures decision == Turn(c, s, a) && called == Calls(s, a)
  {
    if a.stopRequested.Some? { return End(Stopped(a.stopRequested.value)), false; }
    if (s.continuing || s.readOnlySession.Some?) && s.correcting { return End(ModesOverlap), false; }
    if a.reservationRefused { return End(AdmissionRefused), false; }
    if s.attempt > MAX_STORED_ATTEMPT { return End(EvidenceRefused), true; }
    return Decide(c, s, a), true;
  }

  /** `_invoke_agent`. `environment(n)` is what happens in attempt `n`. The loop ends
      after at most 100 provider calls in every mode, because outputs of a later
      attempt cannot be stored; with a repair limit it also ends within one attempt
      plus the allowances, for any finite sets of states that can occur. The error
      for a correction overlapping a continuation is never raised. */
  method InvokeAgent(c: Config, environment: nat -> Attempt, ghost states: set<nat>, ghost tools: set<seq<nat>>)
    returns (outcome: Outcome, calls: nat)
    requires ValidConfig(c)
    requires c.repairLimit.Some? ==> forall n: nat :: Observed(environment(n), states, tools)
    ensures exists k: nat :: EndsAfter(c, environment, k, outcome, calls)
    ensures calls <= MAX_STORED_ATTEMPT + 1
    ensures c.repairLimit.Some? ==> calls <= 1 + 1 + (c.routes - 1) + c.repairLimit.value + |states| + |tools|
    ensures outcome != ModesOverlap
    ensures outcome.Returned? ==> calls >= 1 && environment(calls).response.Accepted?
                                  && environment(calls).result.status.Completed?
    ensures outcome.EvidenceRefused? ==> calls == MAX_STORED_ATTEMPT + 1
  {
    hide Turn, Calls, LoopState, Observed, ValidConfig;
    var s := FIRST;
    ghost var k: nat := 0;
    while true
      invariant s == StateAfter(c, environment, k) && s.attempt == k + 1 <= MAX_STORED_ATTEMPT + 1
      invariant forall j: nat :: j < k ==> Repeats(c, environment, j)
      decreases MAX_STORED_ATTEMPT + 1 - s.attempt
    {
      var a := environment(s.attempt);
      var decision, called := TakeTurn(c, s, a);
      if decision.End? {
        calls := s.attempt - 1 + if called then 1 else 0;
        outcome := decision.outcome;
        assert EndsAfter(c, environment, k, outcome, calls);
        EndingsAreBounded(c, environment, k, outcome, calls, states, tools);
        return;
      }
      assert Repeats(c, environment, k);
      s, k := decision.next, k + 1;
      RepetitionsKeepState(c, environment, k);
    }
  }
}
