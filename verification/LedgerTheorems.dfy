/** Theorems about every run of the budget ledger: an arbitrary interleaving of
    reservation attempts and settlements, starting from the empty ledger. */
module LedgerTheorems {
  import opened Prelude
  import opened Pricing
  import opened Ledger
  import opened LedgerRuns
  import opened Runs

  datatype Event = ReserveCall(request: Request) | CompleteCall(reservation: Reservation, telemetry: Telemetry)

  function Step(b: AgentBudget, s: LedgerState, e: Event): LedgerState {
    match e
    case ReserveCall(q) => Reserve(b, s, q).0
    case CompleteCall(r, t) => Complete(b, s, r, t).0
  }

  predicate Admits(b: AgentBudget, s: LedgerState, e: Event) {
    e.ReserveCall? && Reserve(b, s, e.request).1.Reserved?
  }

  /** `complete_call` raises `AgentBudgetExceeded`. */
  predicate Raises(b: AgentBudget, s: LedgerState, e: Event) {
    e.CompleteCall? && Complete(b, s, e.reservation, e.telemetry).1.OverBudget?
  }

  /** The reservation was counted, then rejected by its own validator. */
  predicate Malforms(b: AgentBudget, s: LedgerState, e: Event) {
    e.ReserveCall? && Reserve(b, s, e.request).1 == Refused(MalformedReservation)
  }

  function StepOf(b: AgentBudget): (LedgerState, Event) -> LedgerState {
    (s, e) => Step(b, s, e)
  }

  function After(b: AgentBudget, events: seq<Event>): LedgerState {
    Run(StepOf(b), EMPTY, events)
  }

  function RaisesOf(b: AgentBudget): (LedgerState, Event) -> bool {
    (s, e) => Raises(b, s, e)
  }

  function MalformsOf(b: AgentBudget): (LedgerState, Event) -> bool {
    (s, e) => Malforms(b, s, e)
  }

  function RaiseCount(b: AgentBudget, events: seq<Event>): nat {
    Count(StepOf(b), RaisesOf(b), EMPTY, events)
  }

  predicate NeverMalformed(b: AgentBudget, events: seq<Event>) {
    Count(StepOf(b), MalformsOf(b), EMPTY, events) == 0
  }

  function Violated(b: AgentBudget, s: LedgerState): Option<Violation> {
    Exceeded(b, Snapshot(s))
  }

  // ------------------------------------------------------------------ effects

  /** What one event does to the ledger. */
  datatype Effect = Unchanged | CountedOnly | Held(held: Reservation) | Recorded(call: CallRecord, raised: bool)

  ghost predicate HasEffect(b: AgentBudget, s: LedgerState, s': LedgerState, effect: Effect) {
    match effect
    case Unchanged => s' == s
    case CountedOnly => s' == s.(started := s.started + 1) && ValidCounts(Snapshot(s))
    case Held(r) =>
      && s' == Hold(s, r) && r.sequence == s.started + 1
      && WellFormedAttribution(r.call) && Admissible(b, s, r.call, r.reserved)
      && ValidCounts(Snapshot(s))
    case Recorded(c, raised) =>
      && s' == Settle(s, c)
      && c.sequence in s.active && s.active[c.sequence].call == c.call
      && ConsistentCostEvidence(c)
      && (Free(c.call) ==> c.cost == Some(0.0))
      && ValidCounts(Snapshot(s))
      && raised == Verdict(b, Snapshot(s), Snapshot(s'), c).OverBudget?
  }

  lemma EffectOf(b: AgentBudget, s: LedgerState, e: Event) returns (effect: Effect)
    requires Accounts(b, s)
    ensures HasEffect(b, s, Step(b, s, e), effect)
    ensures Raises(b, s, e) <==> effect.Recorded? && effect.raised
    ensures Malforms(b, s, e) <==> effect.CountedOnly?
    ensures Admits(b, s, e) ==> effect == Held(Reserve(b, s, e.request).1.reservation)
  {
    match e
    case ReserveCall(q) =>
      ReserveCases(b, s, q);
      match Reserve(b, s, q).1 {
        case Reserved(r) => effect := Held(r);
        case Refused(why) => effect := if why == MalformedReservation then CountedOnly else Unchanged;
      }
    case CompleteCall(r, t) =>
      CompleteCases(b, s, r, t);
      if Settleable(s, r, t) {
        assert r.sequence in UpTo(s.started);
        RecordIsConsistent(r, t);
        effect := Recorded(RecordOf(r, t), Complete(b, s, r, t).1.OverBudget?);
      } else {
        effect := Unchanged;
      }
  }

  // ------------------------------------------------------------ conservation

  /** A reachable ledger is whole, or has lost a call. */
  ghost predicate Reachable(b: AgentBudget, s: LedgerState) {
    Accounts(b, s) && (Covered(s) <==> |s.active| + s.completed == s.started)
  }

  lemma EffectKeepsAccounts(b: AgentBudget, s: LedgerState, s': LedgerState, effect: Effect)
    requires Accounts(b, s) && HasEffect(b, s, s', effect)
    ensures Accounts(b, s')
    ensures effect.Held? || effect.Recorded? ==> Covered(s) ==> Covered(s')
  {
    match effect
    case Unchanged =>
    case CountedOnly => CountingKeepsAccounts(b, s);
    case Held(r) => HoldKeepsAccounts(b, s, r);
    case Recorded(c, _) => SettleKeepsRecord(b, s, s.active[c.sequence], c);
  }

  lemma EffectKeepsReachable(b: AgentBudget, s: LedgerState, s': LedgerState, effect: Effect)
    requires Reachable(b, s) && HasEffect(b, s, s', effect)
    ensures Reachable(b, s')
    ensures Covered(s) ==> (effect.CountedOnly? <==> !Covered(s'))
    ensures !Covered(s) ==> s' == s
  {
    EffectKeepsAccounts(b, s, s', effect);
    SnapshotValidity(b, s);
    SnapshotValidity(b, s');
  }

  lemma StepKeepsReachable(b: AgentBudget, s: LedgerState, e: Event)
    requires Reachable(b, s)
    ensures Reachable(b, Step(b, s, e))
    ensures Covered(s) ==> (Malforms(b, s, e) <==> !Covered(Step(b, s, e)))
    ensures !Covered(s) ==> Step(b, s, e) == s
  {
    var effect := EffectOf(b, s, e);
    EffectKeepsReachable(b, s, Step(b, s, e), effect);
  }

  lemma StepsKeepReachable(b: AgentBudget)
    ensures forall s, e :: Reachable(b, s) ==> Reachable(b, StepOf(b)(s, e))
    ensures forall s, e :: Reachable(b, s) && Covered(s) ==> (Malforms(b, s, e) <==> !Covered(StepOf(b)(s, e)))
    ensures forall s, e :: Reachable(b, s) && !Covered(s) ==> StepOf(b)(s, e) == s
  {
    forall s, e | Reachable(b, s)
      ensures Reachable(b, StepOf(b)(s, e))
      ensures Covered(s) ==> (Malforms(b, s, e) <==> !Covered(StepOf(b)(s, e)))
      ensures !Covered(s) ==> StepOf(b)(s, e) == s
    {
      StepKeepsReachable(b, s, e);
    }
  }

  lemma ReachableFrom(b: AgentBudget, s: LedgerState, events: seq<Event>)
    requires Reachable(b, s)
    ensures Reachable(b, Run(StepOf(b), s, events))
  {
    StepsKeepReachable(b);
    RunKeeps(StepOf(b), x => Reachable(b, x), s, events);
  }

  lemma EmptyIsReachable(b: AgentBudget)
    ensures Reachable(b, EMPTY) && Covered(EMPTY)
  {
  }

  lemma EmptyIsUncrossed(b: AgentBudget)
    ensures Violated(b, EMPTY).None?
  {
  }

  lemma ReachableAlways(b: AgentBudget, events: seq<Event>)
    ensures Reachable(b, After(b, events))
  {
    EmptyIsReachable(b);
    ReachableFrom(b, EMPTY, events);
  }

  lemma ConservationFrom(b: AgentBudget, s: LedgerState, events: seq<Event>)
    requires Reachable(b, s) && Covered(s)
    ensures Count(StepOf(b), MalformsOf(b), s, events) == 0 <==> Covered(Run(StepOf(b), s, events))
  {
    StepsKeepReachable(b);
    UnbrokenIff(StepOf(b), MalformsOf(b), x => Reachable(b, x), x => Covered(x), s, events);
  }

  lemma NeverMalformedIffCovered(b: AgentBudget, events: seq<Event>)
    ensures NeverMalformed(b, events) <==> Covered(After(b, events))
  {
    EmptyIsReachable(b);
    ConservationFrom(b, EMPTY, events);
  }

  /** A run keeps the ledger coherent exactly when no request was counted and then
      rejected: then the handed-out sequences are the active and the recorded
      ones; otherwise one counted call is neither, and every snapshot raises. */
  lemma CoherentIff(b: AgentBudget, events: seq<Event>)
    ensures Accounts(b, After(b, events))
    ensures NeverMalformed(b, events) <==> Covered(After(b, events))
    ensures NeverMalformed(b, events) <==> ValidCounts(Snapshot(After(b, events)))
  {
    NeverMalformedIffCovered(b, events);
    ReachableAlways(b, events);
    SnapshotValidity(b, After(b, events));
  }

  ghost predicate WellFormedEvent(e: Event) {
    e.ReserveCall? ==> WellFormedAttribution(e.request)
  }

  lemma WellFormedIsNotMalformed(b: AgentBudget, s: LedgerState, e: Event)
    requires WellFormedEvent(e)
    ensures !Malforms(b, s, e)
  {
    hide Snapshot, ValidCounts, UserTaskAdmission, IsAgentName, WellFormedAttribution;
    if e.ReserveCall? { AdmissionRefusals(b, s, e.request); }
  }

  /** A guarantee for callers: well-formed attribution keeps the ledger whole. */
  lemma {:induction false} WellFormedRequestsConserve(b: AgentBudget, events: seq<Event>)
    requires forall i :: 0 <= i < |events| ==> WellFormedEvent(events[i])
    ensures Covered(After(b, events))
  {
    hide Covered, Reachable, Accounts, Malforms, ValidCounts;
    if events == [] {
      CoherentIff(b, events);
    } else {
      var before, e := events[..|events| - 1], events[|events| - 1];
      WellFormedRequestsConserve(b, before);
      ReachableAlways(b, before);
      StepKeepsReachable(b, After(b, before), e);
      assert WellFormedEvent(events[|events| - 1]);
      WellFormedIsNotMalformed(b, After(b, before), e);
    }
  }

  const UNNUMBERED := Request("a", None, None, 0, None, None)

  lemma UnnumberedRequestBreaks(b: AgentBudget, s: LedgerState)
    requires b.authority.ControlledEvaluation? && s.started < b.maxCalls.value && ValidCounts(Snapshot(s))
    ensures Malforms(b, s, ReserveCall(UNNUMBERED))
  {
    assert IsAgentName(UNNUMBERED.agentId);
    assert !WellFormedAttribution(UNNUMBERED);
  }

  /** The failing input: a request with attempt 0, at any point of an evaluation
      that has calls left. */
  lemma UnnumberedRequestMalforms(b: AgentBudget, events: seq<Event>)
    requires b.authority.ControlledEvaluation? && NeverMalformed(b, events)
    requires After(b, events).started < b.maxCalls.value
    ensures Malforms(b, After(b, events), ReserveCall(UNNUMBERED))
  {
    CoherentIff(b, events);
    UnnumberedRequestBreaks(b, After(b, events));
  }

  lemma {:induction false} BrokenLedgerIsFrozen(b: AgentBudget, s: LedgerState, later: seq<Event>)
    requires Reachable(b, s) && !Covered(s)
    ensures Run(StepOf(b), s, later) == s
  {
    if later == [] {
    } else {
      BrokenLedgerIsFrozen(b, s, later[..|later| - 1]);
      StepKeepsReachable(b, s, later[|later| - 1]);
    }
  }

  lemma BrokenLedgerRefuses(b: AgentBudget, s: LedgerState, q: Request, r: Reservation, t: Telemetry)
    requires Reachable(b, s) && !Covered(s)
    ensures Reserve(b, s, q).1.Refused? && Complete(b, s, r, t).1.CompletionRejected?
  {
    hide Accounts, ValidCounts, Snapshot, UserTaskAdmission, WellFormedAttribution, RecordOf, Settle, Verdict;
    hide ConsistentCostEvidence, IsAgentName;
    SnapshotValidity(b, s);
  }

  lemma MalformedStepBreaks(b: AgentBudget, s: LedgerState, e: Event)
    requires Reachable(b, s) && Malforms(b, s, e)
    ensures Step(b, s, e) == s.(started := s.started + 1)
    ensures Reachable(b, Step(b, s, e)) && !Covered(Step(b, s, e))
  {
    var effect := EffectOf(b, s, e);
    CountingKeepsAccounts(b, s);
    SnapshotValidity(b, s);
  }

  /** A malformed request leaves a ledger that nothing repairs: whatever follows,
      the counted call stays missing, no later request is admitted and no call
      that was active can be settled. */
  lemma MalformedRequestFreezesLedger(b: AgentBudget, events: seq<Event>, e: Event, later: seq<Event>,
                                      q: Request, r: Reservation, t: Telemetry)
    requires Malforms(b, After(b, events), e)
    ensures var s, s' := After(b, events), After(b, events + [e] + later);
            && s' == s.(started := s.started + 1)
            && Reserve(b, s', q).1.Refused?
            && Complete(b, s', r, t).1.CompletionRejected?
  {
    var s := After(b, events);
    ReachableAlways(b, events);
    MalformedStepBreaks(b, s, e);
    RunAppend(StepOf(b), EMPTY, events, e);
    RunConcat(StepOf(b), EMPTY, events + [e], later);
    BrokenLedgerIsFrozen(b, Step(b, s, e), later);
    BrokenLedgerRefuses(b, Step(b, s, e), q, r, t);
  }

  // ------------------------------------------------------------ single settlement

  lemma RecordedEffect(b: AgentBudget, s: LedgerState, s': LedgerState, effect: Effect, k: nat)
    requires HasEffect(b, s, s', effect) && k in Sequences(s.records)
    ensures k in Sequences(s'.records)
  {
    if effect.Recorded? { SequencesAppend(s.records, effect.call); }
  }

  lemma RecordedLater(b: AgentBudget, s: LedgerState, later: seq<Event>, k: nat)
    requires Reachable(b, s) && k in Sequences(s.records)
    ensures k in Sequences(Run(StepOf(b), s, later).records)
  {
    var inv := x => Reachable(b, x) && k in Sequences(x.records);
    forall x, e | inv(x) ensures inv(StepOf(b)(x, e)) {
      var effect := EffectOf(b, x, e);
      RecordedEffect(b, x, Step(b, x, e), effect, k);
      StepKeepsReachable(b, x, e);
    }
    RunKeeps(StepOf(b), inv, s, later);
  }

  lemma RecordedCannotSettle(b: AgentBudget, s: LedgerState, again: Reservation, t: Telemetry)
    requires Reachable(b, s) && again.sequence in Sequences(s.records)
    ensures Complete(b, s, again, t).0 == s && Complete(b, s, again, t).1.CompletionRejected?
  {
    assert again.sequence !in s.active.Keys;
  }

  lemma SettlementRecords(b: AgentBudget, s: LedgerState, r: Reservation, t: Telemetry)
    requires Reachable(b, s) && !Complete(b, s, r, t).1.CompletionRejected?
    ensures r.sequence in Sequences(Complete(b, s, r, t).0.records)
    ensures r.sequence in s.active && s.active[r.sequence] == r
    ensures Complete(b, s, r, t).0 == Settle(s, RecordOf(r, t))
  {
    CompleteCases(b, s, r, t);
    SequencesAppend(s.records, RecordOf(r, t));
  }

  /** A reservation settles at most once: after its call is recorded, every later
      attempt to settle that sequence is rejected and changes nothing. */
  lemma SettlesOnce(b: AgentBudget, events: seq<Event>, r: Reservation, t: Telemetry,
                    later: seq<Event>, again: Reservation, t': Telemetry)
    requires !Complete(b, After(b, events), r, t).1.CompletionRejected?
    requires again.sequence == r.sequence
    ensures var s := After(b, events + [CompleteCall(r, t)] + later);
            Complete(b, s, again, t').0 == s && Complete(b, s, again, t').1.CompletionRejected?
  {
    hide Reachable, Complete, Settle, Sequences, Run;
    var settled := events + [CompleteCall(r, t)];
    ReachableAlways(b, events);
    SettlementRecords(b, After(b, events), r, t);
    RunAppend(StepOf(b), EMPTY, events, CompleteCall(r, t));
    ReachableAlways(b, settled);
    RecordedLater(b, After(b, settled), later, r.sequence);
    RunConcat(StepOf(b), EMPTY, settled, later);
    ReachableAlways(b, settled + later);
    RecordedCannotSettle(b, After(b, settled + later), again, t');
  }

  // --------------------------------------------------------------- rejections

  lemma UserRecordedViolation(b: AgentBudget, s: LedgerState, c: CallRecord)
    requires Authorized(b, s) && b.authority.UserTask?
    requires c.sequence in s.active && s.active[c.sequence].call == c.call
    requires Free(c.call) ==> c.cost == Some(0.0)
    ensures var before, after := Snapshot(s), Snapshot(Settle(s, c));
            && (Verdict(b, before, after, c).OverBudget? <==> Exceeded(b, before).None? && Exceeded(b, after).Some?)
            && (Exceeded(b, before).Some? ==> Exceeded(b, after).Some?)
  {
  }

  lemma UserEffectViolation(b: AgentBudget, s: LedgerState, s': LedgerState, effect: Effect)
    requires Authorized(b, s) && b.authority.UserTask? && HasEffect(b, s, s', effect)
    ensures effect.Recorded? && effect.raised <==> Violated(b, s).None? && Violated(b, s').Some?
    ensures Violated(b, s).Some? ==> Violated(b, s').Some?
  {
    if effect.Recorded? { UserRecordedViolation(b, s, effect.call); }
  }

  lemma UserStepViolation(b: AgentBudget, s: LedgerState, e: Event)
    requires Accounts(b, s) && b.authority.UserTask?
    ensures Raises(b, s, e) <==> Violated(b, s).None? && Violated(b, Step(b, s, e)).Some?
    ensures Violated(b, s).Some? ==> Violated(b, Step(b, s, e)).Some?
  {
    var effect := EffectOf(b, s, e);
    UserEffectViolation(b, s, Step(b, s, e), effect);
  }

  function Crossed(b: AgentBudget, s: LedgerState): nat {
    if Violated(b, s).Some? then 1 else 0
  }

  lemma UserTaskRejections(b: AgentBudget, s: LedgerState, events: seq<Event>)
    requires b.authority.UserTask? && Reachable(b, s)
    ensures Crossed(b, s) + Count(StepOf(b), RaisesOf(b), s, events)
            == Crossed(b, Run(StepOf(b), s, events))
  {
    forall x, e | Reachable(b, x)
      ensures Reachable(b, StepOf(b)(x, e))
      ensures Crossed(b, x) + (if Raises(b, x, e) then 1 else 0) == Crossed(b, StepOf(b)(x, e))
    {
      StepKeepsReachable(b, x, e);
      UserStepViolation(b, x, e);
    }
    CountExactly(StepOf(b), RaisesOf(b), x => Reachable(b, x), x => Crossed(b, x), s, events);
  }

  lemma UserTaskRejectionsFromEmpty(b: AgentBudget, events: seq<Event>)
    requires b.authority.UserTask?
    ensures Crossed(b, EMPTY) + RaiseCount(b, events) == Crossed(b, After(b, events))
  {
    EmptyIsReachable(b);
    UserTaskRejections(b, EMPTY, events);
  }

  /** User task: the number of settlements rejected in a run is one if the ledger
      has crossed its authority and zero otherwise, so never more than one. */
  lemma UserTaskRejectsOnce(b: AgentBudget, events: seq<Event>)
    requires b.authority.UserTask?
    ensures RaiseCount(b, events) == Crossed(b, After(b, events)) <= 1
  {
    UserTaskRejectionsFromEmpty(b, events);
    EmptyIsUncrossed(b);
  }

  /** Position of a violation counted from the end of the reporting order. */
  function Rank(v: Option<Violation>): nat {
    match v
    case None => 0
    case Some(EstimatedCost) => 1
    case Some(Duration) => 2
    case Some(OutputTokens) => 3
    case Some(InputTokens) => 4
    case Some(UnaccountedSpend) => 5
  }

  lemma EvaluationRecordedViolation(b: AgentBudget, s: LedgerState, c: CallRecord)
    requires b.authority.ControlledEvaluation?
    ensures var before, after := Exceeded(b, Snapshot(s)), Exceeded(b, Snapshot(Settle(s, c)));
            && Rank(before) <= Rank(after) <= 4
            && (Verdict(b, Snapshot(s), Snapshot(Settle(s, c)), c).OverBudget? <==> Rank(before) < Rank(after))
  {
  }

  lemma EvaluationEffectViolation(b: AgentBudget, s: LedgerState, s': LedgerState, effect: Effect)
    requires b.authority.ControlledEvaluation? && HasEffect(b, s, s', effect)
    ensures Rank(Violated(b, s)) <= Rank(Violated(b, s')) <= 4
    ensures effect.Recorded? && effect.raised <==> Rank(Violated(b, s)) < Rank(Violated(b, s'))
  {
    if effect.Recorded? { EvaluationRecordedViolation(b, s, effect.call); }
  }

  lemma EvaluationStepViolation(b: AgentBudget, s: LedgerState, e: Event)
    requires Accounts(b, s) && b.authority.ControlledEvaluation?
    ensures Rank(Violated(b, s)) <= Rank(Violated(b, Step(b, s, e))) <= 4
    ensures Raises(b, s, e) <==> Rank(Violated(b, s)) < Rank(Violated(b, Step(b, s, e)))
  {
    var effect := EffectOf(b, s, e);
    EvaluationEffectViolation(b, s, Step(b, s, e), effect);
  }

  lemma EvaluationRejections(b: AgentBudget, s: LedgerState, events: seq<Event>)
    requires b.authority.ControlledEvaluation? && Reachable(b, s) && Rank(Violated(b, s)) <= 4
    ensures Rank(Violated(b, s)) + Count(StepOf(b), RaisesOf(b), s, events)
            <= Rank(Violated(b, Run(StepOf(b), s, events))) <= 4
  {
    var inv := x => Reachable(b, x) && Rank(Violated(b, x)) <= 4;
    forall x, e | inv(x)
      ensures inv(StepOf(b)(x, e))
      ensures Rank(Violated(b, x)) + (if Raises(b, x, e) then 1 else 0) <= Rank(Violated(b, StepOf(b)(x, e)))
    {
      StepKeepsReachable(b, x, e);
      EvaluationStepViolation(b, x, e);
    }
    CountWithin(StepOf(b), RaisesOf(b), inv, x => Rank(Violated(b, x)), s, events);
  }

  lemma EvaluationRejectionsFromEmpty(b: AgentBudget, events: seq<Event>)
    requires b.authority.ControlledEvaluation? && Rank(Violated(b, EMPTY)) <= 4
    ensures Rank(Violated(b, EMPTY)) + RaiseCount(b, events) <= Rank(Violated(b, After(b, events))) <= 4
  {
    EmptyIsReachable(b);
    EvaluationRejections(b, EMPTY, events);
  }

  /** Controlled evaluation: the reported violation only moves to an earlier entry
      of the reporting order, so at most four settlements are rejected. */
  lemma EvaluationRejectsAtMostFour(b: AgentBudget, events: seq<Event>)
    requires b.authority.ControlledEvaluation?
    ensures RaiseCount(b, events) <= Rank(Violated(b, After(b, events))) <= 4
  {
    EmptyIsUncrossed(b);
    EvaluationRejectionsFromEmpty(b, events);
  }

  predicate Idle(s: LedgerState) {
    s.active == map[] && s.completed == s.started && s.unpriced <= s.completed && s.unreported <= s.completed
  }

  lemma CallSettles(b: AgentBudget, s: LedgerState, q: Request, t: Telemetry)
    requires b.authority.ControlledEvaluation? && Idle(s) && s.started < b.maxCalls.value
    requires IsAgentName(q.agentId) && WellFormedAttribution(q) && NonNegative(t)
    ensures var r := Reservation(s.started + 1, q, 0.0);
            && Step(b, s, ReserveCall(q)) == Hold(s, r)
            && Step(b, Hold(s, r), CompleteCall(r, t)) == Settle(Hold(s, r), RecordOf(r, t))
            && Idle(Settle(Hold(s, r), RecordOf(r, t)))
  {
    hide IsAgentName, WellFormedAttribution, Exceeded, EstimateCallCost;
    var r := Reservation(s.started + 1, q, 0.0);
    HoldsNothing(s.active, s.started);
    assert Hold(s, r).active.Keys == {r.sequence};
    RecordIsConsistent(r, t);
    assert Settle(Hold(s, r), RecordOf(r, t)).active == map[];
    HoldsNothing(map[], s.started + 1);
  }

  lemma RaiseCountAppend(b: AgentBudget, events: seq<Event>, e: Event)
    ensures RaiseCount(b, events + [e]) == RaiseCount(b, events) + if Raises(b, After(b, events), e) then 1 else 0
    ensures After(b, events + [e]) == Step(b, After(b, events), e)
  {
    hide Raises, Step;
    assert (events + [e])[..|events|] == events;
  }

  /** One more call of an evaluation that has none active: it is rejected if and only if the
      reported violation moves. */
  lemma OneMoreCall(b: AgentBudget, events: seq<Event>, q: Request, t: Telemetry) returns (longer: seq<Event>)
    requires b.authority.ControlledEvaluation?
    requires Idle(After(b, events)) && After(b, events).started < b.maxCalls.value
    requires IsAgentName(q.agentId) && WellFormedAttribution(q) && NonNegative(t)
    ensures var s, s' := After(b, events), After(b, longer);
            var r := Reservation(s.started + 1, q, 0.0);
            && s' == Settle(Hold(s, r), RecordOf(r, t)) && Idle(s')
            && RaiseCount(b, longer)
               == RaiseCount(b, events) + if Rank(Violated(b, s)) < Rank(Violated(b, s')) then 1 else 0
  {
    hide Accounts, Covered, Settle, RecordOf, Rank, Violated, WellFormedAttribution, IsAgentName, RaiseCount, After;
    hide Step, Idle, Hold, NonNegative, Complete, Reserve;
    var s := After(b, events);
    var r := Reservation(s.started + 1, q, 0.0);
    var held := events + [ReserveCall(q)];
    longer := held + [CompleteCall(r, t)];
    CallSettles(b, s, q, t);
    RaiseCountAppend(b, events, ReserveCall(q));
    RaiseCountAppend(b, held, CompleteCall(r, t));
    ReachableAlways(b, events);
    ReachableAlways(b, held);
    EvaluationStepViolation(b, s, ReserveCall(q));
    EvaluationStepViolation(b, After(b, held), CompleteCall(r, t));
  }

  /** A request of which one input token costs more than `ceiling`. */
  function Costly(ceiling: Usd): Request {
    Request("a", None, None, 1, None,
            Some(ModelPricing("m", Some(Rates((ceiling + 1.0) * 1000000.0, 0.0, UserSupplied)), None, None, None)))
  }

  function Counters(input: nat, output: nat, durationMs: nat): Telemetry {
    Telemetry(Some(input), Some(output), durationMs, CacheUsage(Some(0), Some(0)))
  }

  lemma CostlyToken(ceiling: Usd)
    ensures var q := Costly(ceiling);
            && IsAgentName(q.agentId) && WellFormedAttribution(q)
            && ExpectedCost(q, Some(1), Some(0), CacheUsage(Some(0), Some(0))) == Some(ceiling + 1.0)
  {
  }

  /** What such a call adds to the ledger. */
  lemma CallAdds(s: LedgerState, r: Reservation, input: nat, output: nat, durationMs: nat)
    requires s.active == map[]
    ensures var s' := Settle(Hold(s, r), RecordOf(r, Counters(input, output, durationMs)));
            var cost := ExpectedCost(r.call, Some(input), Some(output), CacheUsage(Some(0), Some(0)));
            && s'.started == s.started + 1 && s'.inputTokens == s.inputTokens + input
            && s'.outputTokens == s.outputTokens + output && s'.durationMs == s.durationMs + durationMs
            && s'.known == s.known + if cost.Some? then cost.value else 0.0
  {
    hide ExpectedCost;
  }

  /** Four is reached: every evaluation that allows four calls has a run in which the cost,
      the duration, the output tokens and the input tokens are crossed one after the other. */
  lemma EvaluationRejectsFour(b: AgentBudget) returns (events: seq<Event>)
    requires b.authority.ControlledEvaluation? && b.maxCalls.value >= 4
    ensures RaiseCount(b, events) == 4
  {
    hide After, RaiseCount, IsAgentName, WellFormedAttribution, ReservedUpTo, ExpectedCost, Settle, Hold, RecordOf;
    var q := Costly(b.ceiling);
    var tooLong, tooMuch, tooMany :=
      b.maxDurationSeconds.value * 1000 + 1, b.maxOutputTokens.value + 1, b.maxInputTokens.value + 1;
    CostlyToken(b.ceiling);
    hide Costly;
    RunNothing(b);
    events := OneMoreCall(b, [], q, Counters(1, 0, 0));
    CallAdds(EMPTY, Reservation(1, q, 0.0), 1, 0, 0);
    var s := After(b, events);
    assert Violated(b, s) == Some(EstimatedCost);
    events := OneMoreCall(b, events, q, Counters(0, 0, tooLong));
    CallAdds(s, Reservation(2, q, 0.0), 0, 0, tooLong);
    s := After(b, events);
    assert Violated(b, s) == Some(Duration);
    events := OneMoreCall(b, events, q, Counters(0, tooMuch, 0));
    CallAdds(s, Reservation(3, q, 0.0), 0, tooMuch, 0);
    s := After(b, events);
    assert Violated(b, s) == Some(OutputTokens);
    events := OneMoreCall(b, events, q, Counters(tooMany, 0, 0));
    CallAdds(s, Reservation(4, q, 0.0), tooMany, 0, 0);
    assert Violated(b, After(b, events)) == Some(InputTokens);
  }

  lemma RunNothing(b: AgentBudget)
    ensures After(b, []) == EMPTY && RaiseCount(b, []) == 0
  {
  }

  lemma ViolationPersists(b: AgentBudget, s: LedgerState, later: seq<Event>)
    requires b.authority.UserTask? && Reachable(b, s) && Violated(b, s).Some?
    ensures Violated(b, Run(StepOf(b), s, later)).Some?
  {
    var inv := x => Reachable(b, x) && Violated(b, x).Some?;
    forall x, e | inv(x) ensures inv(StepOf(b)(x, e)) {
      StepKeepsReachable(b, x, e);
      UserStepViolation(b, x, e);
    }
    RunKeeps(StepOf(b), inv, s, later);
  }

  lemma ViolationAdmitsNoPaidCall(b: AgentBudget, s: LedgerState, q: Request)
    requires Accounts(b, s) && b.authority.UserTask? && Violated(b, s).Some?
    ensures Reserve(b, s, q).1.Reserved? ==> Free(q) && s.unpriced == 0
  {
    hide Accounts, Reserve, UserTaskAdmission, Violated, Free;
    UserViolation(b, s);
    if Reserve(b, s, q).1.Reserved? {
      ReservedIsAdmitted(b, s, q);
      AdmissionIsAdmissible(b, s, q);
    }
  }

  lemma UserViolation(b: AgentBudget, s: LedgerState)
    requires b.authority.UserTask? && Violated(b, s).Some?
    ensures s.unpriced > 0 || s.known > b.ceiling
  {
    hide ReservedUpTo;
  }

  lemma ReservedIsAdmitted(b: AgentBudget, s: LedgerState, q: Request)
    requires b.authority.UserTask? && Reserve(b, s, q).1.Reserved?
    ensures UserTaskAdmission(b, s, q).0.None? && s.unpriced == 0
  {
    hide Snapshot, ValidCounts, IsAgentName, WellFormedAttribution, Available, MaxRequestCost, Free;
  }

  /** Once a settlement was rejected, no paid call is admitted for the rest of
      the run, and after a settlement of unknown cost no call at all. */
  lemma NoPaidCallAfterRejection(b: AgentBudget, events: seq<Event>, e: Event, later: seq<Event>, q: Request)
    requires b.authority.UserTask?
    requires Raises(b, After(b, events), e)
    ensures var s := After(b, events + [e] + later);
            Reserve(b, s, q).1.Reserved? ==> Free(q) && s.unpriced == 0
  {
    ReachableAlways(b, events);
    UserStepViolation(b, After(b, events), e);
    RunAppend(StepOf(b), EMPTY, events, e);
    ReachableAlways(b, events + [e]);
    ViolationPersists(b, After(b, events + [e]), later);
    RunConcat(StepOf(b), EMPTY, events + [e], later);
    ReachableAlways(b, events + [e] + later);
    ViolationAdmitsNoPaidCall(b, After(b, events + [e] + later), q);
  }

  /** Recorded spend passes the ceiling by less than the cost of the last paid
      call: every call settled after that one was free. */
  lemma OverspendIsOneCall(b: AgentBudget, events: seq<Event>)
    requires b.authority.UserTask?
    ensures var s := After(b, events);
            s.known <= b.ceiling || exists i :: LastPaidCall(b, s, i)
  {
    ReachableAlways(b, events);
  }

  // -------------------------------------------------------------- exclusivity

  ghost predicate PaidCallActive(s: LedgerState) {
    exists k :: k in s.active && !FreeCall(s.active[k])
  }

  /** At most one paid call is active; while one is, recorded spend and the held
      amount make up the ceiling exactly, and otherwise nothing is held. */
  lemma PaidCallsAreExclusive(b: AgentBudget, events: seq<Event>)
    requires b.authority.UserTask?
    ensures var s := After(b, events);
            && (forall j, k :: j in s.active && k in s.active && !FreeCall(s.active[j]) && !FreeCall(s.active[k])
                  ==> j == k)
            && Snapshot(s).reserved == (if PaidCallActive(s) then b.ceiling - s.known else 0.0)
            && (PaidCallActive(s) ==> Snapshot(s).reserved > 0.0)
  {
    hide CallsTracked, TotalsAgree, CallsWellFormed, LastPaidCall, ReservedUpTo, Free, Covered, Run;
    ReachableAlways(b, events);
    HeldAmount(b, After(b, events));
  }

  lemma BusyAdmission(b: AgentBudget, s: LedgerState, q: Request)
    requires b.authority.UserTask? && Accounts(b, s)
    ensures UserTaskAdmission(b, s, q).0 == Some(Busy)
            <==> Attributed(q) && !Free(q) && PaidCallActive(s)
  {
    hide Accounts, Available, Snapshot, MaxRequestCost, Free, FreeCall;
    AvailableAmount(b, s);
  }

  lemma BusyCondition(b: AgentBudget, s: LedgerState, q: Request)
    requires b.authority.UserTask? && Accounts(b, s)
    ensures Reserve(b, s, q).1 == Refused(Busy)
            <==> (&& IsAgentName(q.agentId) && Attributed(q) && !Free(q)
                  && ValidCounts(Snapshot(s)) && PaidCallActive(s))
  {
    hide Accounts, UserTaskAdmission, Snapshot, ValidCounts, IsAgentName, WellFormedAttribution, Attributed, Free;
    hide PaidCallActive;
    BusyAdmission(b, s, q);
  }

  /** A request is told to wait exactly when it is a fully attributed paid call,
      the ledger is coherent and another paid call is active. */
  lemma BusyIff(b: AgentBudget, events: seq<Event>, q: Request)
    requires b.authority.UserTask?
    ensures Reserve(b, After(b, events), q).1 == Refused(Busy)
            <==> (&& IsAgentName(q.agentId) && Attributed(q) && !Free(q)
                  && NeverMalformed(b, events) && PaidCallActive(After(b, events)))
  {
    CoherentIff(b, events);
    BusyCondition(b, After(b, events), q);
  }

  // ---------------------------------------------------------------- admission

  /** The guard of admission: what the request and the ledger must satisfy to get past every
      check that is made before the call is counted. */
  ghost predicate Grants(b: AgentBudget, s: LedgerState, q: Request) {
    && IsAgentName(q.agentId)
    && (b.maxCalls.Some? ==> s.started < b.maxCalls.value)
    && (b.authority.UserTask? ==> Attributed(q) && s.unpriced == 0 && (Free(q) || Affords(b, s, q)))
  }

  /** No other paid call is active and the ceiling leaves room for a paid request. */
  ghost predicate Affords(b: AgentBudget, s: LedgerState, q: Request)
    requires q.pricing.Some?
  {
    && !PaidCallActive(s) && s.known < b.ceiling
    && (MaxRequestCost(q.pricing.value).Some? ==> MaxRequestCost(q.pricing.value).value <= b.ceiling - s.known)
  }

  lemma UserAdmissionIff(b: AgentBudget, s: LedgerState, q: Request)
    requires b.authority.UserTask? && Accounts(b, s)
    ensures UserTaskAdmission(b, s, q).0.None?
            <==> Attributed(q) && s.unpriced == 0 && (Free(q) || Affords(b, s, q))
  {
    hide Accounts, Available, Snapshot, MaxRequestCost, Free, FreeCall;
    AvailableAmount(b, s);
  }

  lemma GrantedIff(b: AgentBudget, s: LedgerState, q: Request)
    requires Accounts(b, s)
    ensures Reserve(b, s, q).1.Reserved?
            <==> ValidCounts(Snapshot(s)) && Grants(b, s, q) && WellFormedAttribution(q)
    ensures Malforms(b, s, ReserveCall(q))
            <==> ValidCounts(Snapshot(s)) && Grants(b, s, q) && !WellFormedAttribution(q)
  {
    hide Accounts, UserTaskAdmission, Snapshot, ValidCounts, IsAgentName, WellFormedAttribution, Attributed, Free;
    hide Affords;
    AdmissionRefusals(b, s, q);
    if b.authority.UserTask? { UserAdmissionIff(b, s, q); }
  }

  /** A request is admitted exactly when the ledger is coherent, the guard grants it and its
      attribution is well-formed; granted with malformed attribution, it breaks the ledger. */
  lemma AdmittedIff(b: AgentBudget, events: seq<Event>, q: Request)
    ensures Reserve(b, After(b, events), q).1.Reserved?
            <==> NeverMalformed(b, events) && Grants(b, After(b, events), q) && WellFormedAttribution(q)
    ensures Malforms(b, After(b, events), ReserveCall(q))
            <==> NeverMalformed(b, events) && Grants(b, After(b, events), q) && !WellFormedAttribution(q)
  {
    hide Grants, WellFormedAttribution, NeverMalformed, Malforms, Reserve;
    CoherentIff(b, events);
    GrantedIff(b, After(b, events), q);
  }

  /** Event `i` of the run is no request, or not one that is granted with malformed attribution. */
  ghost predicate HarmlessAt(b: AgentBudget, events: seq<Event>, i: nat)
    requires i < |events|
  {
    events[i].ReserveCall? && Grants(b, After(b, events[..i]), events[i].request)
    ==> WellFormedAttribution(events[i].request)
  }

  lemma HarmlessIff(b: AgentBudget, events: seq<Event>, e: Event)
    requires NeverMalformed(b, events)
    ensures HarmlessAt(b, events + [e], |events|) <==> !Malforms(b, After(b, events), e)
  {
    hide Grants, WellFormedAttribution, NeverMalformed;
    assert (events + [e])[..|events|] == events;
    if e.ReserveCall? { AdmittedIff(b, events, e.request); }
  }

  lemma {:induction false} HarmlessRunsConserve(b: AgentBudget, events: seq<Event>)
    ensures Covered(After(b, events)) <==> forall i: nat :: i < |events| ==> HarmlessAt(b, events, i)
  {
    hide Covered, Reachable, HarmlessAt, NeverMalformed, Malforms;
    if events == [] {
      EmptyIsReachable(b);
    } else {
      var before, e := events[..|events| - 1], events[|events| - 1];
      HarmlessRunsConserve(b, before);
      ReachableAlways(b, before);
      StepKeepsReachable(b, After(b, before), e);
      NeverMalformedIffCovered(b, before);
      assert events == before + [e];
      if Covered(After(b, before)) { HarmlessIff(b, before, e); }
      forall i: nat | i < |before| ensures HarmlessAt(b, events, i) <==> HarmlessAt(b, before, i) {
        HarmlessKept(b, before, e, i);
      }
    }
  }

  /** Conservation of a run, by what callers can check before each call: all totals are those of
      the records, and the sequences handed out are the active and the recorded ones, so that
      snapshots pass their validator, exactly when every request that the guard granted was
      well-formed. */
  lemma ConservationIff(b: AgentBudget, events: seq<Event>)
    ensures Accounts(b, After(b, events))
    ensures Covered(After(b, events)) <==> forall i: nat :: i < |events| ==> HarmlessAt(b, events, i)
    ensures ValidCounts(Snapshot(After(b, events))) <==> forall i: nat :: i < |events| ==> HarmlessAt(b, events, i)
  {
    hide Accounts, Covered, ValidCounts, HarmlessAt, NeverMalformed;
    HarmlessRunsConserve(b, events);
    CoherentIff(b, events);
  }

  lemma HarmlessKept(b: AgentBudget, events: seq<Event>, e: Event, i: nat)
    requires i < |events|
    ensures HarmlessAt(b, events + [e], i) <==> HarmlessAt(b, events, i)
  {
    hide Grants, WellFormedAttribution, After;
    assert (events + [e])[..i] == events[..i];
  }

  // ------------------------------------------------------------------ waiting

  lemma SettledPaidCallLeavesNone(b: AgentBudget, s: LedgerState, r: Reservation, c: CallRecord)
    requires b.authority.UserTask? && Accounts(b, s) && !FreeCall(r)
    requires r.sequence in s.active && s.active[r.sequence] == r && c.sequence == r.sequence
    ensures !PaidCallActive(Settle(s, c))
  {
  }

  /** When the active paid call settles, a waiting request is answered at that
      point: admitted or refused, not told to wait. */
  lemma SettlementEndsWaiting(b: AgentBudget, events: seq<Event>, r: Reservation, t: Telemetry, q: Request)
    requires b.authority.UserTask? && !FreeCall(r)
    requires !Complete(b, After(b, events), r, t).1.CompletionRejected?
    ensures Reserve(b, After(b, events + [CompleteCall(r, t)]), q).1 != Refused(Busy)
  {
    hide Accounts, Complete, Reserve, PaidCallActive, Settle, Sequences, NeverMalformed, Covered, Run;
    ReachableAlways(b, events);
    SettlementRecords(b, After(b, events), r, t);
    SettledPaidCallLeavesNone(b, After(b, events), r, RecordOf(r, t));
    RunAppend(StepOf(b), EMPTY, events, CompleteCall(r, t));
    BusyIff(b, events + [CompleteCall(r, t)], q);
  }

  lemma HoldOccupies(b: AgentBudget, s: LedgerState, r: Reservation)
    requires b.authority.UserTask? && Reachable(b, s) && !FreeCall(r) && ValidCounts(Snapshot(s))
    requires r.sequence == s.started + 1 && IsAgentName(r.call.agentId)
    requires WellFormedAttribution(r.call) && Admissible(b, s, r.call, r.reserved)
    ensures Reserve(b, Hold(s, r), r.call).1 == Refused(Busy)
  {
    HoldKeepsAccounts(b, s, r);
    SnapshotValidity(b, Hold(s, r));
    assert r.sequence in Hold(s, r).active && Hold(s, r).active[r.sequence] == r;
    BusyCondition(b, Hold(s, r), r.call);
  }

  lemma AdmissionHolds(b: AgentBudget, s: LedgerState, q: Request)
    requires b.authority.UserTask? && Reachable(b, s) && !Free(q) && Reserve(b, s, q).1.Reserved?
    ensures Reserve(b, Reserve(b, s, q).0, q).1 == Refused(Busy)
  {
    ReserveCases(b, s, q);
    HoldOccupies(b, s, Reserve(b, s, q).1.reservation);
  }

  /** A waiting request can still be overtaken: whenever a paid request is
      admitted, the same request right behind it is told to wait. */
  lemma AdmissionOccupiesAuthorization(b: AgentBudget, events: seq<Event>, q: Request)
    requires b.authority.UserTask? && !Free(q)
    requires Reserve(b, After(b, events), q).1.Reserved?
    ensures Reserve(b, After(b, events + [ReserveCall(q)]), q).1 == Refused(Busy)
  {
    ReachableAlways(b, events);
    AdmissionHolds(b, After(b, events), q);
    RunAppend(StepOf(b), EMPTY, events, ReserveCall(q));
  }

  // ------------------------------------------------------------ final refusals

  /** Refusals raised as `AgentBudgetExceeded` proper, which the wait loop does
      not retry. */
  predicate IsTerminal(why: Refusal) {
    why in {CallsExhausted, PricingUnknown, SpendUnaccounted, AuthorizationExhausted, RequestBoundTooHigh}
  }

  predicate Hopeless(b: AgentBudget, s: LedgerState, q: Request) {
    || (b.maxCalls.Some? && s.started >= b.maxCalls.value)
    || (b.authority.UserTask? && HopelessAdmission(b, s, q))
  }

  /** The user-task refusals that no settlement can lift. */
  predicate HopelessAdmission(b: AgentBudget, s: LedgerState, q: Request) {
    || q.pricing.None? || q.pricing.value.rates.None? || q.pricing.value.cache.None?
    || s.unpriced > 0
    || (!Free(q) && s.known >= b.ceiling)
    || (!Free(q) && MaxRequestCost(q.pricing.value).Some?
        && MaxRequestCost(q.pricing.value).value > b.ceiling - s.known)
  }

  lemma ExhaustedIsHopeless(b: AgentBudget, s: LedgerState, q: Request)
    requires Accounts(b, s) && b.authority.UserTask? && UserTaskAdmission(b, s, q).0 == Some(AuthorizationExhausted)
    ensures HopelessAdmission(b, s, q)
  {
    hide Accounts, Available, Snapshot, MaxRequestCost, Free, FreeCall;
    AvailableAmount(b, s);
  }

  lemma BoundTooHighIsHopeless(b: AgentBudget, s: LedgerState, q: Request)
    requires Accounts(b, s) && b.authority.UserTask? && UserTaskAdmission(b, s, q).0 == Some(RequestBoundTooHigh)
    ensures HopelessAdmission(b, s, q)
  {
    hide Accounts, Available, Snapshot, MaxRequestCost, Free, FreeCall;
    AvailableAmount(b, s);
  }

  lemma UnknownIsHopeless(b: AgentBudget, s: LedgerState, q: Request)
    requires UserTaskAdmission(b, s, q).0 in {Some(PricingUnknown), Some(SpendUnaccounted)}
    ensures HopelessAdmission(b, s, q)
  {
    hide Available, Snapshot, MaxRequestCost, Free;
  }

  lemma TerminalRefusalIsHopeless(b: AgentBudget, s: LedgerState, q: Request)
    requires Accounts(b, s)
    requires Reserve(b, s, q).1.Refused? && IsTerminal(Reserve(b, s, q).1.why)
    ensures Hopeless(b, s, q)
  {
    hide Accounts, UserTaskAdmission, Snapshot, ValidCounts, IsAgentName, WellFormedAttribution, HopelessAdmission;
    AdmissionRefusals(b, s, q);
    var refused := UserTaskAdmission(b, s, q).0;
    if b.authority.UserTask? {
      if refused == Some(AuthorizationExhausted) {
        ExhaustedIsHopeless(b, s, q);
      } else if refused == Some(RequestBoundTooHigh) {
        BoundTooHighIsHopeless(b, s, q);
      } else if refused in {Some(PricingUnknown), Some(SpendUnaccounted)} {
        UnknownIsHopeless(b, s, q);
      }
    }
  }

  lemma HopelessEffect(b: AgentBudget, s: LedgerState, s': LedgerState, q: Request, effect: Effect)
    requires HasEffect(b, s, s', effect) && Hopeless(b, s, q)
    ensures Hopeless(b, s', q)
  {
    hide Admissible, WellFormedAttribution, ConsistentCostEvidence, ValidCounts, Snapshot, Verdict, Free,
         MaxRequestCost;
  }

  lemma HopelessStays(b: AgentBudget, s: LedgerState, q: Request, e: Event)
    requires Accounts(b, s) && Hopeless(b, s, q)
    ensures Hopeless(b, Step(b, s, e), q)
  {
    var effect := EffectOf(b, s, e);
    HopelessEffect(b, s, Step(b, s, e), q, effect);
  }

  lemma HopelessIsNotAdmitted(b: AgentBudget, s: LedgerState, q: Request)
    requires Accounts(b, s) && b.authority.UserTask? && HopelessAdmission(b, s, q)
    ensures UserTaskAdmission(b, s, q).0.Some?
  {
    hide Accounts, Available, Snapshot, MaxRequestCost, Free, FreeCall;
    AvailableAmount(b, s);
  }

  lemma HopelessIsRefused(b: AgentBudget, s: LedgerState, q: Request)
    requires Accounts(b, s) && Hopeless(b, s, q)
    ensures Reserve(b, s, q).1.Refused?
  {
    hide Accounts, UserTaskAdmission, Snapshot, ValidCounts, IsAgentName, WellFormedAttribution, HopelessAdmission;
    if b.authority.UserTask? && HopelessAdmission(b, s, q) { HopelessIsNotAdmitted(b, s, q); }
  }

  /** A request refused with a terminal budget error is never admitted later in
      the run, whatever is reserved or settled in between. */
  lemma TerminalRefusalIsFinal(b: AgentBudget, events: seq<Event>, later: seq<Event>, q: Request)
    requires Reserve(b, After(b, events), q).1.Refused?
    requires IsTerminal(Reserve(b, After(b, events), q).1.why)
    ensures Reserve(b, After(b, events + later), q).1.Refused?
  {
    ReachableAlways(b, events);
    TerminalRefusalIsHopeless(b, After(b, events), q);
    var inv := x => Reachable(b, x) && Hopeless(b, x, q);
    forall x, e | inv(x) ensures inv(StepOf(b)(x, e)) {
      StepKeepsReachable(b, x, e);
      HopelessStays(b, x, q, e);
    }
    RunKeeps(StepOf(b), inv, After(b, events), later);
    RunConcat(StepOf(b), EMPTY, events, later);
    HopelessIsRefused(b, After(b, events + later), q);
  }

  // ----------------------------------------------------------- terminal record

  ghost predicate Ascending(calls: seq<CallRecord>) {
    forall i, j :: 0 <= i < j < |calls| ==> calls[i].sequence < calls[j].sequence
  }

  lemma {:induction false} InsertKeepsTotal(f: CallRecord -> nat, c: CallRecord, calls: seq<CallRecord>)
    ensures Total(f, InsertBySequence(c, calls)) == Total(f, calls) + f(c)
  {
    var n := |calls|;
    if n == 0 || calls[n - 1].sequence <= c.sequence {
      TotalAppend(f, calls, c);
    } else {
      InsertKeepsTotal(f, c, calls[..n - 1]);
      TotalAppend(f, InsertBySequence(c, calls[..n - 1]), calls[n - 1]);
    }
  }

  lemma {:induction false} InsertKeepsCost(c: CallRecord, calls: seq<CallRecord>)
    ensures TotalCost(InsertBySequence(c, calls)) == TotalCost(calls) + CostOf(c)
  {
    var n := |calls|;
    if n == 0 || calls[n - 1].sequence <= c.sequence {
      TotalCostAppend(calls, c);
    } else {
      InsertKeepsCost(c, calls[..n - 1]);
      TotalCostAppend(InsertBySequence(c, calls[..n - 1]), calls[n - 1]);
    }
  }

  lemma {:induction false} InsertKeepsOrder(c: CallRecord, calls: seq<CallRecord>)
    requires Ascending(calls)
    requires forall i :: 0 <= i < |calls| ==> calls[i].sequence != c.sequence
    ensures Ascending(InsertBySequence(c, calls))
    ensures |InsertBySequence(c, calls)| == |calls| + 1
    ensures forall x :: x in InsertBySequence(c, calls) <==> x in calls || x == c
  {
    var n := |calls|;
    if n == 0 || calls[n - 1].sequence <= c.sequence {
    } else {
      InsertKeepsOrder(c, calls[..n - 1]);
      assert calls == calls[..n - 1] + [calls[n - 1]];
      var rest := InsertBySequence(c, calls[..n - 1]);
      assert forall i :: 0 <= i < |rest| ==> rest[i] in rest;
    }
  }

  lemma {:induction false} OrderingKeepsTotal(f: CallRecord -> nat, calls: seq<CallRecord>)
    ensures Total(f, InReservationOrder(calls)) == Total(f, calls)
  {
    if calls == [] {
    } else {
      OrderingKeepsTotal(f, calls[..|calls| - 1]);
      InsertKeepsTotal(f, calls[|calls| - 1], InReservationOrder(calls[..|calls| - 1]));
    }
  }

  lemma {:induction false} OrderingKeepsCost(calls: seq<CallRecord>)
    ensures TotalCost(InReservationOrder(calls)) == TotalCost(calls)
  {
    if calls == [] {
    } else {
      OrderingKeepsCost(calls[..|calls| - 1]);
      InsertKeepsCost(calls[|calls| - 1], InReservationOrder(calls[..|calls| - 1]));
    }
  }

  lemma {:induction false} OrderingSorts(calls: seq<CallRecord>)
    requires forall i, j :: 0 <= i < j < |calls| ==> calls[i].sequence != calls[j].sequence
    ensures Ascending(InReservationOrder(calls))
    ensures |InReservationOrder(calls)| == |calls|
    ensures forall x :: x in InReservationOrder(calls) <==> x in calls
  {
    if calls == [] {
    } else {
      var rest, c := calls[..|calls| - 1], calls[|calls| - 1];
      assert calls == rest + [c];
      OrderingSorts(rest);
      var sorted := InReservationOrder(rest);
      forall i | 0 <= i < |sorted| ensures sorted[i].sequence != c.sequence {
        assert sorted[i] in rest;
      }
      InsertKeepsOrder(c, sorted);
    }
  }

  lemma {:induction false} AscendingFloor(calls: seq<CallRecord>, i: nat)
    requires Ascending(calls) && i < |calls| && calls[0].sequence >= 1
    ensures calls[i].sequence >= i + 1
  {
    if i == 0 {
    } else {
      AscendingFloor(calls, i - 1);
    }
  }

  lemma {:induction false} AscendingCeiling(calls: seq<CallRecord>, i: nat)
    requires Ascending(calls) && i < |calls| && calls[|calls| - 1].sequence <= |calls|
    ensures calls[i].sequence <= i + 1
    decreases |calls| - i
  {
    if i == |calls| - 1 {
    } else {
      AscendingCeiling(calls, i + 1);
    }
  }

  lemma ContiguousRecords(b: AgentBudget, s: LedgerState)
    requires Accounts(b, s) && s.started == |s.records|
    ensures var calls := InReservationOrder(s.records);
            && |calls| == |s.records|
            && (forall i :: 0 <= i < |calls| ==> calls[i].sequence == i + 1)
            && (forall i :: 0 <= i < |calls| ==> calls[i] in s.records)
  {
    OrderingSorts(s.records);
    var calls := InReservationOrder(s.records);
    forall i | 0 <= i < |calls| ensures 1 <= calls[i].sequence <= s.started && calls[i] in s.records {
      assert calls[i] in calls;
      var j :| 0 <= j < |s.records| && s.records[j] == calls[i];
      assert calls[i].sequence in Sequences(s.records);
      assert calls[i].sequence in UpTo(s.started);
    }
    forall i | 0 <= i < |calls| ensures calls[i].sequence == i + 1 {
      AscendingFloor(calls, i);
      AscendingCeiling(calls, i);
    }
  }

  lemma TerminalTotals(s: LedgerState)
    requires TotalsAgree(s)
    ensures var calls := InReservationOrder(s.records);
            && Total(InputOf, calls) == s.inputTokens && Total(OutputOf, calls) == s.outputTokens
            && Total(DurationOf, calls) == s.durationMs && TotalCost(calls) == s.known
            && Total(UnpricedOf, calls) == s.unpriced && Total(UnreportedOf, calls) == s.unreported
  {
    hide Total, TotalCost, InReservationOrder;
    OrderingKeepsTotal(InputOf, s.records);
    OrderingKeepsTotal(OutputOf, s.records);
    OrderingKeepsTotal(DurationOf, s.records);
    OrderingKeepsTotal(UnpricedOf, s.records);
    OrderingKeepsTotal(UnreportedOf, s.records);
    OrderingKeepsCost(s.records);
  }

  lemma TerminalCallsAreGood(b: AgentBudget, s: LedgerState)
    requires Accounts(b, s) && s.started == |s.records|
    ensures forall i :: 0 <= i < |InReservationOrder(s.records)| ==> GoodCall(b, InReservationOrder(s.records)[i].call)
  {
    hide InReservationOrder, CallsTracked, TotalsAgree, Authorized, GoodCall, ConsistentCostEvidence;
    ContiguousRecords(b, s);
    var calls := InReservationOrder(s.records);
    forall i | 0 <= i < |calls| ensures GoodCall(b, calls[i].call) {
      var j :| 0 <= j < |s.records| && s.records[j] == calls[i];
    }
  }

  lemma TerminalRecordIsValid(b: AgentBudget, s: LedgerState)
    requires Accounts(b, s) && s.active == map[] && s.started == |s.records|
    ensures ValidAggregate(TerminalRecord(b, s))
  {
    hide InReservationOrder, Total, TotalCost, TotalsAgree, CallsWellFormed, Authorized, ReservedUpTo, Sequences;
    ContiguousRecords(b, s);
    TerminalTotals(s);
    TerminalCallsAreGood(b, s);
    TrackedCompletions(s);
  }

  lemma TrackedCompletions(s: LedgerState)
    requires CallsTracked(s)
    ensures s.completed == |s.records|
  {
    hide Sequences;
  }

  /** The frozen terminal record passes its validator exactly when no call is
      active and no counted call was lost. */
  lemma TerminalRecordIff(b: AgentBudget, events: seq<Event>)
    ensures ValidAggregate(TerminalRecord(b, After(b, events)))
            <==> NeverMalformed(b, events) && After(b, events).active == map[]
  {
    var s := After(b, events);
    ReachableAlways(b, events);
    CoherentIff(b, events);
    assert |s.active| == 0 <==> s.active == map[];
    if s.active == map[] && s.started == |s.records| {
      TerminalRecordIsValid(b, s);
    }
  }
}
