/** What the budget ledger keeps in every run: any number of concurrent callers
    reserve and settle in any order, each call being one atomic step. */
module LedgerRuns {
  import opened Prelude
  import opened Pricing
  import opened Ledger

  // -------------------------------------------------------------- invariants

  function UpTo(n: nat): (r: set<nat>)
    ensures forall k :: k in r <==> 1 <= k <= n
  {
    if n == 0 then {} else UpTo(n - 1) + {n}
  }

  function Sequences(calls: seq<CallRecord>): (r: set<nat>)
    ensures forall i :: 0 <= i < |calls| ==> calls[i].sequence in r
  {
    if calls == [] then {} else Sequences(calls[..|calls| - 1]) + {calls[|calls| - 1].sequence}
  }

  ghost predicate Disjointly(active: set<nat>, recorded: set<nat>, started: nat) {
    active !! recorded && active + recorded <= UpTo(started)
  }

  ghost predicate Partition(active: set<nat>, recorded: set<nat>, started: nat) {
    active + recorded == UpTo(started)
  }

  ghost predicate CallsTracked(s: LedgerState) {
    && Disjointly(s.active.Keys, Sequences(s.records), s.started)
    && (forall k :: k in s.active ==> s.active[k].sequence == k)
    && (forall i, j :: 0 <= i < j < |s.records| ==> s.records[i].sequence != s.records[j].sequence)
    && s.completed == |s.records|
    && |s.active| + s.completed <= s.started
  }

  /** Every sequence handed out is either active or recorded. */
  ghost predicate Covered(s: LedgerState) {
    && Partition(s.active.Keys, Sequences(s.records), s.started)
    && |s.active| + s.completed == s.started
  }

  ghost predicate TotalsAgree(s: LedgerState) {
    && s.inputTokens == Total(InputOf, s.records)
    && s.outputTokens == Total(OutputOf, s.records)
    && s.durationMs == Total(DurationOf, s.records)
    && s.known == TotalCost(s.records)
    && s.unpriced == Total(UnpricedOf, s.records) <= s.completed
    && s.unreported == Total(UnreportedOf, s.records) <= s.completed
  }

  predicate GoodCall(b: AgentBudget, q: Request) {
    WellFormedAttribution(q) && (b.authority.UserTask? ==> Attributed(q))
  }

  ghost predicate CallsWellFormed(b: AgentBudget, s: LedgerState) {
    && (forall k :: k in s.active ==> GoodCall(b, s.active[k].call))
    && (forall i :: 0 <= i < |s.records| ==>
          ConsistentCostEvidence(s.records[i]) && GoodCall(b, s.records[i].call))
  }

  /** Record `i` is a paid call, was admitted below the ceiling, and every record
      settled after it belongs to a free route. */
  ghost predicate LastPaidCall(b: AgentBudget, s: LedgerState, i: nat) {
    && i < |s.records| && !Free(s.records[i].call)
    && s.known - CostOf(s.records[i]) < b.ceiling
    && forall j :: i < j < |s.records| ==> Free(s.records[j].call)
  }

  ghost predicate Authorized(b: AgentBudget, s: LedgerState) {
    match b.authority
    case ControlledEvaluation =>
      forall k :: k in s.active ==> s.active[k].reserved == 0.0
    case UserTask =>
      && (forall k :: k in s.active && FreeCall(s.active[k]) ==> s.active[k].reserved == 0.0)
      && (forall j, k :: j in s.active && k in s.active && !FreeCall(s.active[j]) && !FreeCall(s.active[k])
            ==> j == k)
      && (forall k :: k in s.active && !FreeCall(s.active[k]) ==>
            && s.active[k].reserved > 0.0
            && s.known + s.active[k].reserved == b.ceiling
            && s.unpriced == 0)
      && (s.known > b.ceiling ==> exists i :: LastPaidCall(b, s, i))
  }

  ghost predicate Accounts(b: AgentBudget, s: LedgerState) {
    CallsTracked(s) && TotalsAgree(s) && CallsWellFormed(b, s) && Authorized(b, s)
  }

  // ------------------------------------------------------------ reserved sum

  lemma {:induction false} HoldsNothing(active: map<nat, Reservation>, last: nat)
    requires forall k :: k in active ==> active[k].reserved == 0.0
    ensures ReservedUpTo(active, last) == 0.0
  {
    if last == 0 {
    } else {
      HoldsNothing(active, last - 1);
    }
  }

  lemma {:induction false} HoldsOne(active: map<nat, Reservation>, last: nat, k: nat)
    requires k in active && k >= 1
    requires forall j :: j in active && j != k ==> active[j].reserved == 0.0
    ensures ReservedUpTo(active, last) == if k <= last then active[k].reserved else 0.0
  {
    if last == 0 {
    } else {
      HoldsOne(active, last - 1, k);
    }
  }

  /** In a user task the held amount is the one paid call's, or nothing. */
  lemma HeldAmount(b: AgentBudget, s: LedgerState)
    requires Accounts(b, s)
    ensures (forall k :: k in s.active ==> b.authority.ControlledEvaluation? || FreeCall(s.active[k]))
            ==> Snapshot(s).reserved == 0.0
    ensures b.authority.UserTask? ==>
              forall k :: k in s.active && !FreeCall(s.active[k]) ==> Snapshot(s).reserved == s.active[k].reserved
  {
    if forall k :: k in s.active ==> b.authority.ControlledEvaluation? || FreeCall(s.active[k]) {
      HoldsNothing(s.active, s.started);
    }
    if b.authority.UserTask? {
      forall k | k in s.active && !FreeCall(s.active[k])
        ensures Snapshot(s).reserved == s.active[k].reserved
      {
        assert k in UpTo(s.started);
        HoldsOne(s.active, s.started, k);
      }
    }
  }

  /** A snapshot raises exactly when a counted call is neither active nor recorded. */
  lemma SnapshotValidity(b: AgentBudget, s: LedgerState)
    requires Accounts(b, s)
    ensures ValidCounts(Snapshot(s)) <==> |s.active| + s.completed == s.started
  {
    if |s.active| == 0 {
      assert s.active.Keys == {};
      HeldAmount(b, s);
    }
  }

  // ------------------------------------------------------------------- steps

  lemma CountingKeepsAccounts(b: AgentBudget, s: LedgerState)
    requires Accounts(b, s)
    ensures Accounts(b, s.(started := s.started + 1))
  {
    hide CallsTracked, TotalsAgree, CallsWellFormed, Authorized;
    CountingKeepsTracking(s);
    CountingKeepsTotals(s);
    CountingKeepsCalls(b, s);
    CountingKeepsAuthority(b, s);
  }

  lemma CountingKeepsTracking(s: LedgerState)
    requires CallsTracked(s)
    ensures CallsTracked(s.(started := s.started + 1))
  {
    hide Sequences, UpTo;
    var s' := s.(started := s.started + 1);
    assert forall k :: k in UpTo(s.started) ==> k in UpTo(s'.started);
  }

  lemma CountingKeepsTotals(s: LedgerState)
    requires TotalsAgree(s)
    ensures TotalsAgree(s.(started := s.started + 1))
  {
    hide Total, TotalCost;
  }

  lemma CountingKeepsCalls(b: AgentBudget, s: LedgerState)
    requires CallsWellFormed(b, s)
    ensures CallsWellFormed(b, s.(started := s.started + 1))
  {
    hide ConsistentCostEvidence, GoodCall;
  }

  lemma CountingKeepsAuthority(b: AgentBudget, s: LedgerState)
    requires Authorized(b, s)
    ensures Authorized(b, s.(started := s.started + 1))
  {
    hide Free, FreeCall, CostOf;
    var s' := s.(started := s.started + 1);
    forall i | LastPaidCall(b, s, i) ensures LastPaidCall(b, s', i) {}
  }

  lemma IssueNext(active: set<nat>, next: set<nat>, recorded: set<nat>, started: nat)
    requires Disjointly(active, recorded, started)
    requires forall k :: k in next <==> k in active || k == started + 1
    ensures Disjointly(next, recorded, started + 1) && |next| == |active| + 1
    ensures Partition(active, recorded, started) ==> Partition(next, recorded, started + 1)
  {
    assert started + 1 !in UpTo(started);
    assert next == active + {started + 1};
  }

  lemma HoldAddsActive(s: LedgerState, r: Reservation)
    requires CallsTracked(s) && r.sequence == s.started + 1
    ensures var s' := Hold(s, r);
            && (forall k :: k in s'.active.Keys <==> k in s.active.Keys || k == s.started + 1)
            && (forall k :: k in s'.active ==> s'.active[k].sequence == k)
  {
    hide Sequences, Disjointly;
  }

  lemma HoldCounts(s: LedgerState, r: Reservation)
    requires CallsTracked(s) && r.sequence == s.started + 1
    ensures |Hold(s, r).active.Keys| == |s.active.Keys| + 1
  {
    hide Sequences, UpTo, Disjointly, Partition;
    HoldAddsActive(s, r);
    IssueNext(s.active.Keys, Hold(s, r).active.Keys, Sequences(s.records), s.started);
  }

  lemma HoldKeepsDisjoint(s: LedgerState, r: Reservation)
    requires CallsTracked(s) && r.sequence == s.started + 1
    ensures Disjointly(Hold(s, r).active.Keys, Sequences(s.records), s.started + 1)
  {
    hide Sequences, UpTo, Disjointly, Partition;
    HoldAddsActive(s, r);
    IssueNext(s.active.Keys, Hold(s, r).active.Keys, Sequences(s.records), s.started);
  }

  lemma HoldKeepsPartition(s: LedgerState, r: Reservation)
    requires CallsTracked(s) && r.sequence == s.started + 1
    ensures Partition(s.active.Keys, Sequences(s.records), s.started) ==>
              Partition(Hold(s, r).active.Keys, Sequences(s.records), s.started + 1)
  {
    hide Sequences, UpTo, Disjointly, Partition;
    HoldAddsActive(s, r);
    IssueNext(s.active.Keys, Hold(s, r).active.Keys, Sequences(s.records), s.started);
  }

  lemma HoldKeepsTracking(s: LedgerState, r: Reservation)
    requires CallsTracked(s) && r.sequence == s.started + 1
    ensures CallsTracked(Hold(s, r))
    ensures Covered(s) ==> Covered(Hold(s, r))
  {
    hide Sequences, UpTo, Disjointly, Partition;
    HoldAddsActive(s, r);
    HoldCounts(s, r);
    HoldKeepsDisjoint(s, r);
    HoldKeepsPartition(s, r);
  }

  /** What admission of a user-task call establishes about the amount held. */
  ghost predicate Admissible(b: AgentBudget, s: LedgerState, q: Request, amount: Usd) {
    match b.authority
    case ControlledEvaluation => amount == 0.0
    case UserTask =>
      && Attributed(q)
      && (Free(q) ==> amount == 0.0)
      && (!Free(q) ==>
            && (forall k :: k in s.active ==> FreeCall(s.active[k]))
            && amount > 0.0
            && s.known + amount == b.ceiling
            && s.unpriced == 0)
  }

  lemma HoldKeepsAuthority(b: AgentBudget, s: LedgerState, r: Reservation)
    requires Authorized(b, s) && Admissible(b, s, r.call, r.reserved)
    ensures Authorized(b, Hold(s, r))
  {
    forall i | LastPaidCall(b, s, i) ensures LastPaidCall(b, Hold(s, r), i) {}
  }

  /** While a paid call is active nothing is left to admit another one. */
  lemma AvailableAmount(b: AgentBudget, s: LedgerState)
    requires Accounts(b, s) && b.authority.UserTask?
    ensures (forall k :: k in s.active ==> FreeCall(s.active[k])) ==> Available(b, s) == b.ceiling - s.known
    ensures (exists k :: k in s.active && !FreeCall(s.active[k]))
            ==> Available(b, s) == 0.0 && Snapshot(s).reserved > 0.0 && s.known < b.ceiling && s.unpriced == 0
  {
    hide CallsTracked, TotalsAgree, CallsWellFormed, ReservedUpTo, LastPaidCall, Free, FreeCall;
    HeldAmount(b, s);
  }

  lemma AdmissionIsAdmissible(b: AgentBudget, s: LedgerState, q: Request)
    requires Accounts(b, s) && b.authority.UserTask?
    requires UserTaskAdmission(b, s, q).0.None?
    ensures Admissible(b, s, q, UserTaskAdmission(b, s, q).1)
  {
    hide Accounts, Available, Snapshot, MaxRequestCost, Free, FreeCall;
    AvailableAmount(b, s);
  }

  lemma HoldKeepsAccounts(b: AgentBudget, s: LedgerState, r: Reservation)
    requires Accounts(b, s) && r.sequence == s.started + 1
    requires WellFormedAttribution(r.call) && Admissible(b, s, r.call, r.reserved)
    ensures Accounts(b, Hold(s, r))
    ensures Covered(s) ==> Covered(Hold(s, r))
  {
    HoldKeepsTracking(s, r);
    HoldKeepsAuthority(b, s, r);
  }

  /** The refusals that come from the user-task checks. */
  lemma AdmissionRefusals(b: AgentBudget, s: LedgerState, q: Request)
    ensures UserTaskAdmission(b, s, q).0
            in {None, Some(IncompleteAttribution), Some(PricingUnknown), Some(SpendUnaccounted), Some(Busy),
                Some(AuthorizationExhausted), Some(RequestBoundTooHigh)}
  {
    hide Available, Snapshot, MaxRequestCost, Free;
  }

  /** The three things a reservation attempt can do to the ledger. */
  lemma ReserveCases(b: AgentBudget, s: LedgerState, q: Request)
    requires Accounts(b, s)
    ensures var (s', out) := Reserve(b, s, q);
            match out
            case Reserved(r) =>
              && s' == Hold(s, r)
              && r.sequence == s.started + 1 && r.call == q
              && WellFormedAttribution(q) && Admissible(b, s, q, r.reserved)
              && ValidCounts(Snapshot(s))
            case Refused(why) =>
              s' == if why == MalformedReservation then s.(started := s.started + 1) else s
  {
    hide Accounts, UserTaskAdmission, Snapshot, ValidCounts, IsAgentName, WellFormedAttribution, Hold, Free;
    AdmissionRefusals(b, s, q);
    if b.authority.UserTask? && UserTaskAdmission(b, s, q).0.None? {
      AdmissionIsAdmissible(b, s, q);
    }
  }

  lemma RecordIsConsistent(r: Reservation, t: Telemetry)
    requires NonNegative(t) && r.sequence >= 1
    ensures ConsistentCostEvidence(RecordOf(r, t))
    ensures FreeCall(r) ==> RecordOf(r, t).cost == Some(0.0)
  {
  }

  lemma SequencesAppend(calls: seq<CallRecord>, c: CallRecord)
    ensures Sequences(calls + [c]) == Sequences(calls) + {c.sequence}
  {
    assert (calls + [c])[..|calls|] == calls;
  }

  lemma MoveToRecorded(active: set<nat>, recorded: set<nat>, started: nat, k: nat)
    requires Disjointly(active, recorded, started) && k in active
    ensures Disjointly(active - {k}, recorded + {k}, started)
    ensures |active - {k}| == |active| - 1
    ensures active - {k} + (recorded + {k}) == active + recorded
  {
  }

  lemma SettleKeepsTracking(s: LedgerState, c: CallRecord)
    requires CallsTracked(s) && c.sequence in s.active
    ensures CallsTracked(Settle(s, c))
    ensures Covered(s) ==> Covered(Settle(s, c))
    ensures |Settle(s, c).active| == |s.active| - 1
  {
    MoveToRecorded(s.active.Keys, Sequences(s.records), s.started, c.sequence);
    SequencesAppend(s.records, c);
    assert Settle(s, c).active.Keys == s.active.Keys - {c.sequence};
  }

  lemma TotalAppend(f: CallRecord -> nat, calls: seq<CallRecord>, c: CallRecord)
    ensures Total(f, calls + [c]) == Total(f, calls) + f(c)
  {
    assert (calls + [c])[..|calls|] == calls;
  }

  lemma TotalCostAppend(calls: seq<CallRecord>, c: CallRecord)
    ensures TotalCost(calls + [c]) == TotalCost(calls) + CostOf(c)
  {
    assert (calls + [c])[..|calls|] == calls;
  }

  lemma SettleKeepsTotals(s: LedgerState, c: CallRecord)
    requires TotalsAgree(s) && ConsistentCostEvidence(c)
    ensures TotalsAgree(Settle(s, c))
  {
    hide Total, TotalCost;
    TotalAppend(InputOf, s.records, c);
    TotalAppend(OutputOf, s.records, c);
    TotalAppend(DurationOf, s.records, c);
    TotalAppend(UnpricedOf, s.records, c);
    TotalAppend(UnreportedOf, s.records, c);
    TotalCostAppend(s.records, c);
  }

  lemma SettleKeepsAuthority(b: AgentBudget, s: LedgerState, r: Reservation, c: CallRecord)
    requires Authorized(b, s)
    requires r.sequence in s.active && s.active[r.sequence] == r
    requires c.sequence == r.sequence && c.call == r.call
    requires FreeCall(r) ==> c.cost == Some(0.0)
    ensures Authorized(b, Settle(s, c))
  {
    var s' := Settle(s, c);
    if b.authority.UserTask? && s'.known > b.ceiling {
      if FreeCall(r) {
        var i :| LastPaidCall(b, s, i);
        assert LastPaidCall(b, s', i);
      } else {
        assert LastPaidCall(b, s', |s.records|);
      }
    }
  }

  lemma SettleKeepsCalls(b: AgentBudget, s: LedgerState, c: CallRecord)
    requires CallsWellFormed(b, s) && ConsistentCostEvidence(c) && GoodCall(b, c.call)
    ensures CallsWellFormed(b, Settle(s, c))
  {
  }

  lemma SettleKeepsRecord(b: AgentBudget, s: LedgerState, r: Reservation, c: CallRecord)
    requires Accounts(b, s)
    requires r.sequence in s.active && s.active[r.sequence] == r
    requires c.sequence == r.sequence && c.call == r.call && ConsistentCostEvidence(c)
    requires FreeCall(r) ==> c.cost == Some(0.0)
    ensures Accounts(b, Settle(s, c))
    ensures Covered(s) ==> Covered(Settle(s, c))
    ensures ValidCounts(Snapshot(s)) ==> ValidCounts(Snapshot(Settle(s, c)))
  {
    SettleKeepsTracking(s, c);
    SettleKeepsTotals(s, c);
    SettleKeepsCalls(b, s, c);
    SettleKeepsAuthority(b, s, r, c);
    SnapshotValidity(b, s);
    SnapshotValidity(b, Settle(s, c));
  }

  lemma SettleKeepsAccounts(b: AgentBudget, s: LedgerState, r: Reservation, t: Telemetry)
    requires Accounts(b, s) && NonNegative(t)
    requires r.sequence in s.active && s.active[r.sequence] == r
    ensures ConsistentCostEvidence(RecordOf(r, t))
    ensures Accounts(b, Settle(s, RecordOf(r, t)))
    ensures Covered(s) ==> Covered(Settle(s, RecordOf(r, t)))
    ensures ValidCounts(Snapshot(s)) ==> ValidCounts(Snapshot(Settle(s, RecordOf(r, t))))
  {
    assert r.sequence in UpTo(s.started);
    RecordIsConsistent(r, t);
    SettleKeepsRecord(b, s, r, RecordOf(r, t));
  }

  predicate Settleable(s: LedgerState, r: Reservation, t: Telemetry) {
    NonNegative(t) && r.sequence in s.active && s.active[r.sequence] == r && ValidCounts(Snapshot(s))
  }

  /** A settlement either records the call whole or changes nothing. */
  lemma CompleteCases(b: AgentBudget, s: LedgerState, r: Reservation, t: Telemetry)
    requires Accounts(b, s)
    ensures var (s', out) := Complete(b, s, r, t);
            if Settleable(s, r, t) then
              && s' == Settle(s, RecordOf(r, t))
              && out == Verdict(b, Snapshot(s), Snapshot(s'), RecordOf(r, t))
            else s' == s && out.CompletionRejected?
  {
    if Settleable(s, r, t) { SettleKeepsAccounts(b, s, r, t); }
  }
}
