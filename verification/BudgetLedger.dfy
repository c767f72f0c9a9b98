/** `AgentBudgetLedger` with its mutable fields. Each method is one critical
    section; its contract is the ledger step whose runs LedgerTheorems covers. */
module BudgetLedger {
  import opened Prelude
  import opened Pricing
  import opened Ledger

  class AgentBudgetLedger {
    const budget: AgentBudget
    var callsStarted: nat
    var callsCompleted: nat
    var active: map<nat, Reservation>
    var inputTokens: nat
    var outputTokens: nat
    var agentDurationMs: nat
    var knownEstimatedCostUsd: Usd
    var unpricedCalls: nat
    var unreportedTokenCalls: nat
    var callRecords: seq<CallRecord>

    ghost function State(): LedgerState
      reads this
    {
      LedgerState(callsStarted, callsCompleted, active, inputTokens, outputTokens, agentDurationMs,
                  knownEstimatedCostUsd, unpricedCalls, unreportedTokenCalls, callRecords)
    }

    constructor (budget: AgentBudget)
      ensures State() == EMPTY && this.budget == budget
    {
      this.budget := budget;
      callsStarted, callsCompleted, active := 0, 0, map[];
      inputTokens, outputTokens, agentDurationMs := 0, 0, 0;
      knownEstimatedCostUsd, unpricedCalls, unreportedTokenCalls, callRecords := 0.0, 0, 0, [];
    }

    method SnapshotLocked() returns (usage: Usage)
      ensures usage == Snapshot(State())
    {
      var reserved: Usd := 0.0;
      for last := 0 to callsStarted
        invariant reserved == ReservedUpTo(active, last)
      {
        if last + 1 in active {
          reserved := reserved + active[last + 1].reserved;
        }
      }
      usage := Usage(callsStarted, callsCompleted, |active|, inputTokens, outputTokens, agentDurationMs,
                     knownEstimatedCostUsd, reserved, unpricedCalls, unreportedTokenCalls);
    }

    method ReserveCallLocked(q: Request) returns (out: ReserveOutcome)
      modifies this
      ensures (State(), out) == Reserve(budget, old(State()), q)
    {
      if !IsAgentName(q.agentId) { return Refused(InvalidAgentId); }
      var usage := SnapshotLocked();
      if !ValidCounts(usage) { return Refused(IncoherentLedger); }
      if budget.maxCalls.Some? && callsStarted >= budget.maxCalls.value { return Refused(CallsExhausted); }
      var reservedCost: Usd := 0.0;
      if budget.authority.UserTask? {
        if q.runId.None? || q.stage.None? || q.routeId.None? { return Refused(IncompleteAttribution); }
        if q.pricing.None? || q.pricing.value.rates.None? || q.pricing.value.cache.None? {
          return Refused(PricingUnknown);
        }
        if unpricedCalls > 0 { return Refused(SpendUnaccounted); }
        if !Free(q) {
          var available := budget.ceiling - knownEstimatedCostUsd - usage.reserved;
          if available <= 0.0 {
            return Refused(if usage.reserved > 0.0 && knownEstimatedCostUsd < budget.ceiling
                           then Busy else AuthorizationExhausted);
          }
          var requestBound := MaxRequestCost(q.pricing.value);
          if requestBound.Some? && requestBound.value > available { return Refused(RequestBoundTooHigh); }
          reservedCost := available;
        }
      }
      callsStarted := callsStarted + 1;
      if !WellFormedAttribution(q) { return Refused(MalformedReservation); }
      var reservation := Reservation(callsStarted, q, reservedCost);
      active := active[callsStarted := reservation];
      out := Reserved(reservation);
    }

    /** The field updates of one settlement, in the order they are made. */
    method SettleLocked(record: CallRecord)
      modifies this
      ensures State() == Settle(old(State()), record)
    {
      active := active - {record.sequence};
      callsCompleted := callsCompleted + 1;
      if Unreported(record) { unreportedTokenCalls := unreportedTokenCalls + 1; }
      inputTokens := inputTokens + Reported(record.inputTokens);
      outputTokens := outputTokens + Reported(record.outputTokens);
      agentDurationMs := agentDurationMs + record.durationMs;
      if record.cost.None? {
        unpricedCalls := unpricedCalls + 1;
      } else {
        knownEstimatedCostUsd := knownEstimatedCostUsd + record.cost.value;
      }
      callRecords := callRecords + [record];
    }

    method CompleteCall(r: Reservation, t: Telemetry) returns (out: CompleteOutcome)
      modifies this
      ensures (State(), out) == Complete(budget, old(State()), r, t)
    {
      if !NonNegative(t) { return CompletionRejected(NegativeTelemetry); }
      if r.sequence !in active || active[r.sequence] != r { return CompletionRejected(NotActive); }
      var before := SnapshotLocked();
      if !ValidCounts(before) { return CompletionRejected(IncoherentSnapshot); }
      // The record validates first: malformed evidence must not half-settle a call.
      var record := RecordOf(r, t);
      if !ConsistentCostEvidence(record) { return CompletionRejected(InconsistentRecord); }
      SettleLocked(record);
      var usage := SnapshotLocked();
      if !ValidCounts(usage) { return CompletionRejected(IncoherentSnapshot); }
      out := Verdict(budget, before, usage, record);
    }

    method FreezeTerminalRecord() returns (record: LedgerRecord)
      ensures record == TerminalRecord(budget, State())
    {
      var usage := SnapshotLocked();
      record := LedgerRecord(budget, usage, InReservationOrder(callRecords));
    }
  }
}
