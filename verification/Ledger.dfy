/** The budget ledger of one run (budgets.py): what one reservation and one
    settlement do to the accounting state, and the validators of its snapshots.
    Every function here is one critical section under the ledger's lock. */
module Ledger {
  import opened Prelude
  import opened Pricing

  // ---------------------------------------------------------------- budgets

  datatype Authority = ControlledEvaluation | UserTask

  datatype BudgetLimits = Budget(
    authority: Authority,
    maxCalls: Option<nat>,
    maxInputTokens: Option<nat>,
    maxOutputTokens: Option<nat>,
    maxDurationSeconds: Option<nat>,
    ceiling: Usd)

  predicate AuthoritySpecificLimits(b: BudgetLimits) {
    match b.authority
    case ControlledEvaluation =>
      && b.maxCalls.Some? && b.maxCalls.value >= 1
      && b.maxInputTokens.Some? && b.maxInputTokens.value >= 1
      && b.maxOutputTokens.Some? && b.maxOutputTokens.value >= 1
      && b.maxDurationSeconds.Some? && b.maxDurationSeconds.value >= 1
      && b.ceiling > 0.0
    case UserTask =>
      b.maxCalls.None? && b.maxInputTokens.None? && b.maxOutputTokens.None? && b.maxDurationSeconds.None?
  }

  type AgentBudget = b: BudgetLimits | AuthoritySpecificLimits(b)
    witness Budget(UserTask, None, None, None, None, 0.0)

  // ------------------------------------------------------------ attribution

  predicate IsLower(c: char) { 'a' <= c <= 'z' }

  predicate IsDigit(c: char) { '0' <= c <= '9' }

  /** Agent, stage and route identifiers: `[a-z][a-z0-9_]*`. */
  predicate IsAgentName(s: string) {
    |s| > 0 && IsLower(s[0]) && forall i :: 0 < i < |s| ==> IsLower(s[i]) || IsDigit(s[i]) || s[i] == '_'
  }

  /** Run identifiers: `[a-z0-9][a-z0-9_-]*`. */
  predicate IsRunName(s: string) {
    && |s| > 0
    && (IsLower(s[0]) || IsDigit(s[0]))
    && forall i :: 0 < i < |s| ==> IsLower(s[i]) || IsDigit(s[i]) || s[i] == '_' || s[i] == '-'
  }

  datatype Request = Request(
    agentId: string,
    runId: Option<string>,
    stage: Option<string>,
    attempt: int,
    routeId: Option<string>,
    pricing: Option<ModelPricing>)

  /** The field rules `AgentCallReservation` applies beyond the agent name. */
  predicate WellFormedAttribution(q: Request) {
    && (q.runId.Some? ==> IsRunName(q.runId.value))
    && (q.stage.Some? ==> IsAgentName(q.stage.value))
    && (q.routeId.Some? ==> IsAgentName(q.routeId.value))
    && q.attempt >= 1
  }

  function RatesOf(q: Request): Option<Rates> {
    if q.pricing.None? then None else q.pricing.value.rates
  }

  function CacheOf(q: Request): Option<CachePricing> {
    if q.pricing.None? then None else q.pricing.value.cache
  }

  predicate Free(q: Request) {
    ConfirmedZeroPricing(RatesOf(q), CacheOf(q))
  }

  datatype Reservation = Reservation(sequence: nat, call: Request, reserved: Usd)

  predicate FreeCall(r: Reservation) {
    Free(r.call)
  }

  /** Complete attribution, as the user-task ledger demands of every record. */
  predicate Attributed(q: Request) {
    && q.runId.Some? && q.stage.Some? && q.routeId.Some?
    && q.pricing.Some? && q.pricing.value.rates.Some? && q.pricing.value.cache.Some?
  }

  // ---------------------------------------------------------- ledger records

  datatype Telemetry = Telemetry(
    inputTokens: Option<int>,
    outputTokens: Option<int>,
    durationMs: int,
    cache: CacheUsage)

  datatype CostSource = Estimated | ProviderReported | UnknownCost

  datatype CallRecord = CallRecord(
    sequence: nat,
    call: Request,
    inputTokens: Option<nat>,
    outputTokens: Option<nat>,
    durationMs: nat,
    cache: CacheUsage,
    costSource: CostSource,
    cost: Option<Usd>)

  function ExpectedCost(q: Request, inputTokens: Option<nat>, outputTokens: Option<nat>,
                        usage: CacheUsage): Option<Usd> {
    EstimateCallCost(inputTokens, outputTokens, RatesOf(q), usage, CacheOf(q))
  }

  /** `ModelCallCostRecord.require_consistent_cost_evidence`. */
  predicate ConsistentCostEvidence(r: CallRecord) {
    && r.sequence >= 1
    && (r.costSource.UnknownCost? <==> r.cost.None?)
    && (r.costSource.Estimated? ==>
          && RatesOf(r.call).Some?
          && r.cost == ExpectedCost(r.call, r.inputTokens, r.outputTokens, r.cache))
  }

  datatype LedgerState = LedgerState(
    started: nat,
    completed: nat,
    active: map<nat, Reservation>,
    inputTokens: nat,
    outputTokens: nat,
    durationMs: nat,
    known: Usd,
    unpriced: nat,
    unreported: nat,
    records: seq<CallRecord>)

  const EMPTY := LedgerState(0, 0, map[], 0, 0, 0, 0.0, 0, 0, [])

  // --------------------------------------------------------------- snapshots

  datatype Usage = Usage(
    started: nat,
    completed: nat,
    activeCalls: nat,
    inputTokens: nat,
    outputTokens: nat,
    durationMs: nat,
    known: Usd,
    reserved: Usd,
    unpriced: nat,
    unreported: nat)

  /** Amount held by active calls; sequences are drawn from 1..`last`. */
  function ReservedUpTo(active: map<nat, Reservation>, last: nat): Usd {
    if last == 0 then 0.0
    else ReservedUpTo(active, last - 1) + if last in active then active[last].reserved else 0.0
  }

  function Snapshot(s: LedgerState): Usage {
    Usage(s.started, s.completed, |s.active|, s.inputTokens, s.outputTokens, s.durationMs,
          s.known, ReservedUpTo(s.active, s.started), s.unpriced, s.unreported)
  }

  /** `AgentBudgetUsage.validate_counts`; a snapshot that fails it raises. */
  predicate ValidCounts(u: Usage) {
    && u.completed + u.activeCalls == u.started
    && u.unpriced <= u.completed
    && u.unreported <= u.completed
    && (u.activeCalls == 0 ==> u.reserved == 0.0)
  }

  datatype Violation = UnaccountedSpend | InputTokens | OutputTokens | Duration | EstimatedCost

  /** The first crossed boundary in the reporting order. */
  function Exceeded(b: AgentBudget, u: Usage): Option<Violation> {
    if b.authority.UserTask? && u.unpriced > 0 then Some(UnaccountedSpend)
    else if b.maxInputTokens.Some? && u.inputTokens > b.maxInputTokens.value then Some(InputTokens)
    else if b.maxOutputTokens.Some? && u.outputTokens > b.maxOutputTokens.value then Some(OutputTokens)
    else if b.maxDurationSeconds.Some? && u.durationMs > b.maxDurationSeconds.value * 1000 then Some(Duration)
    else if u.known > b.ceiling then Some(EstimatedCost)
    else None
  }

  // ------------------------------------------------------------ reservations

  datatype Refusal =
    | InvalidAgentId | IncoherentLedger | CallsExhausted | IncompleteAttribution | PricingUnknown
    | SpendUnaccounted | Busy | AuthorizationExhausted | RequestBoundTooHigh | MalformedReservation

  datatype ReserveOutcome = Reserved(reservation: Reservation) | Refused(why: Refusal)

  function Available(b: AgentBudget, s: LedgerState): real {
    b.ceiling - s.known - Snapshot(s).reserved
  }

  /** The user-task checks: either a refusal or the amount to hold. */
  function UserTaskAdmission(b: AgentBudget, s: LedgerState, q: Request): (Option<Refusal>, Usd) {
    if q.runId.None? || q.stage.None? || q.routeId.None? then (Some(IncompleteAttribution), 0.0)
    else if q.pricing.None? || q.pricing.value.rates.None? || q.pricing.value.cache.None? then
      (Some(PricingUnknown), 0.0)
    else if s.unpriced > 0 then (Some(SpendUnaccounted), 0.0)
    else if Free(q) then (None, 0.0)
    else
      var available := Available(b, s);
      if available <= 0.0 then
        (Some(if Snapshot(s).reserved > 0.0 && s.known < b.ceiling then Busy else AuthorizationExhausted), 0.0)
      else
        var bound := MaxRequestCost(q.pricing.value);
        if bound.Some? && bound.value > available then (Some(RequestBoundTooHigh), 0.0)
        else (None, available)
  }

  function Hold(s: LedgerState, r: Reservation): LedgerState {
    s.(started := s.started + 1, active := s.active[r.sequence := r])
  }

  /** `_reserve_call_locked`. The counter moves before the reservation object is
      built, so a request whose attribution that object rejects has already
      been counted when the error is raised. */
  function Reserve(b: AgentBudget, s: LedgerState, q: Request): (LedgerState, ReserveOutcome) {
    if !IsAgentName(q.agentId) then (s, Refused(InvalidAgentId))
    else if !ValidCounts(Snapshot(s)) then (s, Refused(IncoherentLedger))
    else if b.maxCalls.Some? && s.started >= b.maxCalls.value then (s, Refused(CallsExhausted))
    else
      var admission := if b.authority.UserTask? then UserTaskAdmission(b, s, q) else (None, 0.0);
      if admission.0.Some? then (s, Refused(admission.0.value))
      else
        var counted := s.(started := s.started + 1);
        if !WellFormedAttribution(q) then (counted, Refused(MalformedReservation))
        else
          var r := Reservation(counted.started, q, admission.1);
          (Hold(s, r), Reserved(r))
  }

  // ------------------------------------------------------------- settlements

  datatype CompletionError = NegativeTelemetry | NotActive | IncoherentSnapshot | InconsistentRecord

  datatype CompleteOutcome =
    | Settled(usage: Usage)
    | OverBudget(violation: Violation, usage: Usage)
    | CompletionRejected(error: CompletionError)

  function Natural(value: Option<int>): Option<nat>
    requires value.Some? ==> value.value >= 0
  {
    if value.None? then None else Some(value.value)
  }

  predicate NonNegative(t: Telemetry) {
    && (t.inputTokens.Some? ==> t.inputTokens.value >= 0)
    && (t.outputTokens.Some? ==> t.outputTokens.value >= 0)
    && t.durationMs >= 0
  }

  function RecordOf(r: Reservation, t: Telemetry): CallRecord
    requires NonNegative(t)
  {
    var input, output := Natural(t.inputTokens), Natural(t.outputTokens);
    var cost := ExpectedCost(r.call, input, output, t.cache);
    CallRecord(r.sequence, r.call, input, output, t.durationMs, t.cache,
               if cost.None? then UnknownCost else Estimated, cost)
  }

  function Reported(tokens: Option<nat>): nat {
    if tokens.None? then 0 else tokens.value
  }

  predicate Unreported(c: CallRecord) {
    c.inputTokens.None? || c.outputTokens.None?
  }

  /** The accounting updates, applied only once the record has validated. */
  function Settle(s: LedgerState, c: CallRecord): LedgerState {
    LedgerState(
      s.started,
      s.completed + 1,
      s.active - {c.sequence},
      s.inputTokens + Reported(c.inputTokens),
      s.outputTokens + Reported(c.outputTokens),
      s.durationMs + c.durationMs,
      if c.cost.None? then s.known else s.known + c.cost.value,
      s.unpriced + (if c.cost.None? then 1 else 0),
      s.unreported + (if Unreported(c) then 1 else 0),
      s.records + [c])
  }

  /** Another call's violation is not a rejection of this call's own usage,
      unless this call's own cost is the unknown one. */
  function Verdict(b: AgentBudget, before: Usage, after: Usage, c: CallRecord): CompleteOutcome {
    var violation := Exceeded(b, after);
    if violation.None? || (violation == Exceeded(b, before) && !(b.authority.UserTask? && c.cost.None?))
    then Settled(after)
    else OverBudget(violation.value, after)
  }

  /** `complete_call`. */
  function Complete(b: AgentBudget, s: LedgerState, r: Reservation, t: Telemetry): (LedgerState, CompleteOutcome) {
    if !NonNegative(t) then (s, CompletionRejected(NegativeTelemetry))
    else if r.sequence !in s.active || s.active[r.sequence] != r then (s, CompletionRejected(NotActive))
    else if !ValidCounts(Snapshot(s)) then (s, CompletionRejected(IncoherentSnapshot))
    else
      var c := RecordOf(r, t);
      if !ConsistentCostEvidence(c) then (s, CompletionRejected(InconsistentRecord))
      else
        var s' := Settle(s, c);
        if !ValidCounts(Snapshot(s')) then (s', CompletionRejected(IncoherentSnapshot))
        else (s', Verdict(b, Snapshot(s), Snapshot(s'), c))
  }

  // ---------------------------------------------------------- terminal record

  function InputOf(c: CallRecord): nat { Reported(c.inputTokens) }
  function OutputOf(c: CallRecord): nat { Reported(c.outputTokens) }
  function DurationOf(c: CallRecord): nat { c.durationMs }
  function UnpricedOf(c: CallRecord): nat { if c.costSource.UnknownCost? then 1 else 0 }
  function UnreportedOf(c: CallRecord): nat { if Unreported(c) then 1 else 0 }
  function CostOf(c: CallRecord): Usd { if c.cost.None? then 0.0 else c.cost.value }

  function Total(f: CallRecord -> nat, calls: seq<CallRecord>): nat {
    if calls == [] then 0 else Total(f, calls[..|calls| - 1]) + f(calls[|calls| - 1])
  }

  function TotalCost(calls: seq<CallRecord>): Usd {
    if calls == [] then 0.0 else TotalCost(calls[..|calls| - 1]) + CostOf(calls[|calls| - 1])
  }

  datatype LedgerRecord = LedgerRecord(budget: AgentBudget, usage: Usage, calls: seq<CallRecord>)

  /** `BudgetLedgerRecord.validate_aggregate` (the current schema version). */
  predicate ValidAggregate(l: LedgerRecord) {
    && l.usage.activeCalls == 0
    && l.usage.started == l.usage.completed
    && (forall i :: 0 <= i < |l.calls| ==> l.calls[i].sequence == i + 1)
    && |l.calls| == l.usage.completed
    && (l.budget.authority.UserTask? ==>
          forall i :: 0 <= i < |l.calls| ==>
            var q := l.calls[i].call;
            q.runId.Some? && q.stage.Some? && q.routeId.Some? && q.pricing.Some? && q.pricing.value.rates.Some?)
    && Total(InputOf, l.calls) == l.usage.inputTokens
    && Total(OutputOf, l.calls) == l.usage.outputTokens
    && Total(DurationOf, l.calls) == l.usage.durationMs
    && TotalCost(l.calls) == l.usage.known
    && Total(UnpricedOf, l.calls) == l.usage.unpriced
    && Total(UnreportedOf, l.calls) == l.usage.unreported
  }

  function InsertBySequence(c: CallRecord, calls: seq<CallRecord>): seq<CallRecord> {
    if calls == [] || calls[|calls| - 1].sequence <= c.sequence then calls + [c]
    else InsertBySequence(c, calls[..|calls| - 1]) + [calls[|calls| - 1]]
  }

  /** `sorted(self._call_records, key=lambda item: item.sequence)`. */
  function InReservationOrder(calls: seq<CallRecord>): seq<CallRecord> {
    if calls == [] then [] else InsertBySequence(calls[|calls| - 1], InReservationOrder(calls[..|calls| - 1]))
  }

  function TerminalRecord(b: AgentBudget, s: LedgerState): LedgerRecord {
    LedgerRecord(b, Snapshot(s), InReservationOrder(s.records))
  }
}
