/** Controller-owned assembly of test evidence and review scopes (assembly.py,
    scope resolution in dynamic_runner.py, acceptance resolution in artifacts.py). */
module Assembly {
  import opened Prelude
  import opened Evidence

  // --------------------------------------------------- verification assignment

  predicate Covers(c: CommandEvidence, id: CriterionId) {
    id in c.criteria
  }

  predicate SomeCommandCovers(commands: seq<CommandEvidence>, id: CriterionId) {
    exists i :: 0 <= i < |commands| && Covers(commands[i], id)
  }

  /** `validate_verification_assignment`. */
  predicate ValidAssignment(brief: seq<CriterionId>, commands: seq<CommandEvidence>, manual: seq<CriterionId>) {
    && commands != []
    && CoverageDeclared(commands)
    && (forall i, j :: 0 <= i < |commands| && 0 <= j < |commands[i].criteria| ==> commands[i].criteria[j] in brief)
    && (forall i :: 0 <= i < |manual| ==> manual[i] in brief)
    && (forall i :: 0 <= i < |brief| ==> brief[i] in manual || SomeCommandCovers(commands, brief[i]))
  }

  // ---------------------------------------------------------------- test report

  function CoveringIds(commands: seq<CommandEvidence>, id: CriterionId): seq<CommandId> {
    if commands == [] then []
    else
      var last := commands[|commands| - 1];
      CoveringIds(commands[..|commands| - 1], id) + if Covers(last, id) then [last.id] else []
  }

  function TimedOutIds(commands: seq<CommandEvidence>, id: CriterionId): seq<CommandId> {
    if commands == [] then []
    else
      var last := commands[|commands| - 1];
      TimedOutIds(commands[..|commands| - 1], id) + if Covers(last, id) && last.exit.TimedOut? then [last.id] else []
  }

  predicate FailedExit(c: CommandEvidence) {
    c.exit.Exited? && c.exit.code != 0
  }

  function FailedIds(commands: seq<CommandEvidence>, id: CriterionId): seq<CommandId> {
    if commands == [] then []
    else
      var last := commands[|commands| - 1];
      FailedIds(commands[..|commands| - 1], id) + if Covers(last, id) && FailedExit(last) then [last.id] else []
  }

  function CriterionOutcome(commands: seq<CommandEvidence>, manual: seq<CriterionId>, id: CriterionId)
    : CriterionResult
  {
    var covering, timedOut, failed := CoveringIds(commands, id), TimedOutIds(commands, id), FailedIds(commands, id);
    if timedOut != [] then CriterionResult(id, Blocked, covering, CommandsTimedOut(timedOut))
    else if failed != [] then CriterionResult(id, Failed, covering, CommandsFailed(failed))
    else if id in manual then
      CriterionResult(id, PendingReview, covering,
                      if covering != [] then EvidencePassedReviewPending else AssignedToReview)
    else CriterionResult(id, Passed, covering, CommandsPassed(covering))
  }

  function BlockersOf(commands: seq<CommandEvidence>): seq<Reason> {
    if commands == [] then []
    else
      var last := commands[|commands| - 1];
      BlockersOf(commands[..|commands| - 1])
      + match last.exit
        case TimedOut => [CommandTimedOut(last.id)]
        case Exited(code) => if code != 0 then [CommandFailed(last.id, code)] else []
  }

  function OverallStatus(commands: seq<CommandEvidence>): CheckStatus {
    if exists i :: 0 <= i < |commands| && commands[i].exit.TimedOut? then Blocked
    else if exists i :: 0 <= i < |commands| && FailedExit(commands[i]) then Failed
    else Passed
  }

  function Outcomes(brief: seq<CriterionId>, commands: seq<CommandEvidence>, manual: seq<CriterionId>)
    : (r: seq<CriterionResult>)
    ensures |r| == |brief|
    ensures forall i :: 0 <= i < |brief| ==> r[i] == CriterionOutcome(commands, manual, brief[i])
  {
    seq(|brief|, i requires 0 <= i < |brief| => CriterionOutcome(commands, manual, brief[i]))
  }

  function TestReportOf(brief: seq<CriterionId>, producer: AgentId, iteration: nat, commit: Commit,
                        commands: seq<CommandEvidence>, manual: seq<CriterionId>, findings: seq<Text>): TestReport {
    TestReport(producer, iteration, commit, OverallStatus(commands), commands, Outcomes(brief, commands, manual),
               manual, findings, BlockersOf(commands))
  }

  /** One turn of the loop over the brief's criteria. */
  method AssembleCriterion(commands: seq<CommandEvidence>, manual: seq<CriterionId>, id: CriterionId)
    returns (result: CriterionResult)
    ensures result == CriterionOutcome(commands, manual, id)
  {
    var covering, timedOut, failed := [], [], [];
    for j := 0 to |commands|
      invariant covering == CoveringIds(commands[..j], id)
      invariant timedOut == TimedOutIds(commands[..j], id)
      invariant failed == FailedIds(commands[..j], id)
    {
      assert commands[..j + 1][..j] == commands[..j];
      if Covers(commands[j], id) {
        covering := covering + [commands[j].id];
        if commands[j].exit.TimedOut? {
          timedOut := timedOut + [commands[j].id];
        } else if commands[j].exit.code != 0 {
          failed := failed + [commands[j].id];
        }
      }
    }
    assert commands[..|commands|] == commands;
    if timedOut != [] {
      result := CriterionResult(id, Blocked, covering, CommandsTimedOut(timedOut));
    } else if failed != [] {
      result := CriterionResult(id, Failed, covering, CommandsFailed(failed));
    } else if id in manual {
      result := CriterionResult(id, PendingReview, covering,
                                if covering != [] then EvidencePassedReviewPending else AssignedToReview);
    } else {
      result := CriterionResult(id, Passed, covering, CommandsPassed(covering));
    }
  }

  /** The loop over the brief's criteria. */
  method AssembleCriteria(brief: seq<CriterionId>, commands: seq<CommandEvidence>, manual: seq<CriterionId>)
    returns (criteria: seq<CriterionResult>)
    ensures criteria == Outcomes(brief, commands, manual)
  {
    criteria := [];
    for i := 0 to |brief|
      invariant criteria == Outcomes(brief[..i], commands, manual)
    {
      var result := AssembleCriterion(commands, manual, brief[i]);
      criteria := criteria + [result];
    }
    assert brief[..|brief|] == brief;
  }

  /** The loop over the commands that lists what blocks acceptance. */
  method AssembleBlockers(commands: seq<CommandEvidence>) returns (blockers: seq<Reason>)
    ensures blockers == BlockersOf(commands)
  {
    blockers := [];
    for j := 0 to |commands|
      invariant blockers == BlockersOf(commands[..j])
    {
      assert commands[..j + 1][..j] == commands[..j];
      match commands[j].exit {
        case TimedOut => blockers := blockers + [CommandTimedOut(commands[j].id)];
        case Exited(code) => if code != 0 { blockers := blockers + [CommandFailed(commands[j].id, code)]; }
      }
    }
    assert commands[..|commands|] == commands;
  }

  /** What the types of a brief, of command evidence and of a tester's response already enforce. */
  predicate ValidInputs(brief: seq<CriterionId>, commands: seq<CommandEvidence>, findings: seq<Text>) {
    && brief != [] && Distinct(brief) && Distinct(findings)
    && forall i :: 0 <= i < |commands| ==> ValidCommand(commands[i])
  }

  /** `assemble_test_report`: None where the assignment is refused or the report's own
      validators reject it, which is exactly when an ID repeats. */
  method AssembleTestReport(brief: seq<CriterionId>, producer: AgentId, iteration: nat, commit: Commit,
                            commands: seq<CommandEvidence>, manual: seq<CriterionId>, findings: seq<Text>)
    returns (report: Option<TestReport>)
    requires ValidInputs(brief, commands, findings)
    ensures report.Some?
            <==> ValidAssignment(brief, commands, manual) && Distinct(CommandIds(commands)) && Distinct(manual)
    ensures report.Some? ==>
              && report.value == TestReportOf(brief, producer, iteration, commit, commands, manual, findings)
              && ValidTestReport(report.value)
              && CriterionIds(report.value.criteria) == brief
  {
    if !ValidAssignment(brief, commands, manual) { return None; }
    var criteria := AssembleCriteria(brief, commands, manual);
    var blockers := AssembleBlockers(commands);
    var built := TestReport(producer, iteration, commit, OverallStatus(commands), commands, criteria, manual,
                            findings, blockers);
    AssembledIsValidIff(brief, producer, iteration, commit, commands, manual, findings);
    report := if ValidTestReport(built) then Some(built) else None;
  }

  // ------------------------------------------------- what an assembled report says

  lemma {:induction false} CoveringMeaning(commands: seq<CommandEvidence>, id: CriterionId, c: CommandId)
    ensures c in CoveringIds(commands, id)
            <==> exists i :: 0 <= i < |commands| && commands[i].id == c && Covers(commands[i], id)
  {
    if commands == [] {
    } else {
      CoveringMeaning(commands[..|commands| - 1], id, c);
    }
  }

  lemma {:induction false} CoveringDistinct(commands: seq<CommandEvidence>, id: CriterionId)
    requires Distinct(CommandIds(commands))
    ensures Distinct(CoveringIds(commands, id))
  {
    if commands == [] {
    } else {
      var rest, last := commands[..|commands| - 1], commands[|commands| - 1];
      forall i, j | 0 <= i < j < |rest| ensures CommandIds(rest)[i] != CommandIds(rest)[j] {
        assert CommandIds(commands)[i] != CommandIds(commands)[j];
      }
      CoveringDistinct(rest, id);
      CoveringMeaning(rest, id, last.id);
      forall i | 0 <= i < |rest| ensures rest[i].id != last.id {
        assert CommandIds(commands)[i] != CommandIds(commands)[|commands| - 1];
      }
    }
  }

  lemma {:induction false} TimedOutMeaning(commands: seq<CommandEvidence>, id: CriterionId)
    ensures TimedOutIds(commands, id) == []
            <==> forall i :: 0 <= i < |commands| && Covers(commands[i], id) ==> !commands[i].exit.TimedOut?
  {
    if commands == [] {
    } else {
      TimedOutMeaning(commands[..|commands| - 1], id);
    }
  }

  lemma {:induction false} FailedMeaning(commands: seq<CommandEvidence>, id: CriterionId)
    ensures FailedIds(commands, id) == []
            <==> forall i :: 0 <= i < |commands| && Covers(commands[i], id) ==> !FailedExit(commands[i])
  {
    if commands == [] {
    } else {
      FailedMeaning(commands[..|commands| - 1], id);
    }
  }

  predicate CoveringCommandsPass(commands: seq<CommandEvidence>, id: CriterionId) {
    forall i :: 0 <= i < |commands| && Covers(commands[i], id) ==> Succeeded(commands[i])
  }

  predicate SomeCoveringTimedOut(commands: seq<CommandEvidence>, id: CriterionId) {
    exists i :: 0 <= i < |commands| && Covers(commands[i], id) && commands[i].exit.TimedOut?
  }

  /** Each criterion's status in terms of the commands that cover it. */
  lemma OutcomeMeaning(commands: seq<CommandEvidence>, manual: seq<CriterionId>, id: CriterionId)
    ensures var status := CriterionOutcome(commands, manual, id).status;
            && (status.Blocked? <==> SomeCoveringTimedOut(commands, id))
            && (status.Passed? <==> CoveringCommandsPass(commands, id) && id !in manual)
            && (status.PendingReview? <==> CoveringCommandsPass(commands, id) && id in manual)
  {
    TimedOutMeaning(commands, id);
    FailedMeaning(commands, id);
  }

  lemma {:induction false} BlockersEmptyIff(commands: seq<CommandEvidence>)
    ensures BlockersOf(commands) == [] <==> CommandsPass(commands)
  {
    if commands == [] {
    } else {
      BlockersEmptyIff(commands[..|commands| - 1]);
    }
  }

  lemma {:induction false} BlockersDistinct(commands: seq<CommandEvidence>)
    requires Distinct(CommandIds(commands))
    ensures Distinct(BlockersOf(commands))
    ensures forall r :: r in BlockersOf(commands) ==>
              exists i :: 0 <= i < |commands|
                          && (r == CommandTimedOut(commands[i].id)
                              || (r.CommandFailed? && r.command == commands[i].id))
  {
    if commands == [] {
    } else {
      var rest, last := commands[..|commands| - 1], commands[|commands| - 1];
      forall i, j | 0 <= i < j < |rest| ensures CommandIds(rest)[i] != CommandIds(rest)[j] {
        assert CommandIds(commands)[i] != CommandIds(commands)[j];
      }
      BlockersDistinct(rest);
      forall i | 0 <= i < |rest| ensures rest[i].id != last.id && rest[i] == commands[i] {
        assert CommandIds(commands)[i] != CommandIds(commands)[|commands| - 1];
      }
    }
  }

  lemma OverallMeaning(commands: seq<CommandEvidence>)
    ensures OverallStatus(commands).Passed? <==> CommandsPass(commands)
    ensures !OverallStatus(commands).PendingReview?
  {
  }

  lemma CoveringCited(commands: seq<CommandEvidence>, id: CriterionId, k: nat)
    requires k < |CoveringIds(commands, id)|
    ensures exists j :: 0 <= j < |commands| && commands[j].id == CoveringIds(commands, id)[k]
                        && id in commands[j].criteria
  {
    CoveringMeaning(commands, id, CoveringIds(commands, id)[k]);
  }

  /** Every command's own outcome shows in a criterion it covers. */
  lemma OutcomeOfCommand(brief: seq<CriterionId>, commands: seq<CommandEvidence>, manual: seq<CriterionId>, i: nat)
    requires ValidAssignment(brief, commands, manual) && i < |commands| && !Succeeded(commands[i])
    ensures exists k :: 0 <= k < |brief|
                        && brief[k] in commands[i].criteria
                        && CriterionOutcome(commands, manual, brief[k]).status in {Blocked, Failed}
                        && (commands[i].exit.TimedOut?
                            ==> CriterionOutcome(commands, manual, brief[k]).status.Blocked?)
  {
    assert commands[i].criteria[0] in brief;
    var k :| 0 <= k < |brief| && brief[k] == commands[i].criteria[0];
    assert Covers(commands[i], brief[k]);
    OutcomeMeaning(commands, manual, brief[k]);
  }

  lemma PassedScope(brief: seq<CriterionId>, t: TestReport, commands: seq<CommandEvidence>, manual: seq<CriterionId>)
    requires t.criteria == Outcomes(brief, commands, manual) && t.manual == manual && CommandsPass(commands)
    ensures TesterScopePassed(t)
  {
    hide CriterionOutcome;
    forall i | 0 <= i < |t.criteria| ensures InTesterScope(t, t.criteria[i]) {
      OutcomeMeaning(commands, manual, brief[i]);
      OutcomeKeepsId(commands, manual, brief[i]);
    }
  }

  lemma OutcomeKeepsId(commands: seq<CommandEvidence>, manual: seq<CriterionId>, id: CriterionId)
    ensures CriterionOutcome(commands, manual, id).id == id
  {
    hide CoveringIds, TimedOutIds, FailedIds;
  }

  /** A command that did not succeed shows in some criterion. */
  lemma FailureShows(brief: seq<CriterionId>, t: TestReport, commands: seq<CommandEvidence>, manual: seq<CriterionId>,
                     i: nat)
    requires ValidAssignment(brief, commands, manual) && t.criteria == Outcomes(brief, commands, manual)
    requires i < |commands| && !Succeeded(commands[i])
    ensures SomeCriterion(t, Blocked) || SomeCriterion(t, Failed)
    ensures commands[i].exit.TimedOut? ==> SomeCriterion(t, Blocked)
  {
    hide CriterionOutcome, ValidAssignment;
    OutcomeOfCommand(brief, commands, manual, i);
    var k :| 0 <= k < |brief| && CriterionOutcome(commands, manual, brief[k]).status in {Blocked, Failed}
             && (commands[i].exit.TimedOut? ==> CriterionOutcome(commands, manual, brief[k]).status.Blocked?);
    assert t.criteria[k].status in {Blocked, Failed};
  }

  lemma NothingBlocked(brief: seq<CriterionId>, t: TestReport, commands: seq<CommandEvidence>,
                       manual: seq<CriterionId>)
    requires t.criteria == Outcomes(brief, commands, manual)
    requires forall i :: 0 <= i < |commands| ==> !commands[i].exit.TimedOut?
    ensures !SomeCriterion(t, Blocked)
  {
    hide CriterionOutcome;
    forall k | 0 <= k < |t.criteria| ensures t.criteria[k].status != Blocked {
      OutcomeMeaning(commands, manual, brief[k]);
    }
  }

  lemma AssembledStatusMatches(brief: seq<CriterionId>, producer: AgentId, iteration: nat, commit: Commit,
                               commands: seq<CommandEvidence>, manual: seq<CriterionId>, findings: seq<Text>)
    requires ValidAssignment(brief, commands, manual)
    ensures StatusMatchesEvidence(TestReportOf(brief, producer, iteration, commit, commands, manual, findings))
  {
    hide ValidAssignment, TesterScopePassed, SomeCriterion, BlockersOf, Outcomes;
    var t := TestReportOf(brief, producer, iteration, commit, commands, manual, findings);
    BlockersEmptyIff(commands);
    OverallMeaning(commands);
    if CommandsPass(commands) {
      PassedScope(brief, t, commands, manual);
    } else if t.status.Blocked? {
      var i: nat :| i < |commands| && commands[i].exit.TimedOut?;
      FailureShows(brief, t, commands, manual, i);
    } else {
      var i: nat :| i < |commands| && FailedExit(commands[i]);
      FailureShows(brief, t, commands, manual, i);
      NothingBlocked(brief, t, commands, manual);
    }
  }

  /** What the validators ask of one criterion holds of every assembled one. */
  lemma AssembledCriterionFits(t: TestReport, commands: seq<CommandEvidence>, manual: seq<CriterionId>,
                               id: CriterionId)
    requires Distinct(CommandIds(commands)) && t.commands == commands && t.manual == manual
    ensures var r := CriterionOutcome(commands, manual, id);
            Distinct(r.commands) && CommandsCited(t, r) && ReviewBoundaryKept(t, r)
  {
    hide CoverageDeclared, CoveringIds, TimedOutIds, FailedIds, CommandIds;
    var r := CriterionOutcome(commands, manual, id);
    assert r.commands == CoveringIds(commands, id) && r.id == id;
    CoveringDistinct(commands, id);
    OutcomeMeaning(commands, manual, id);
    forall k | 0 <= k < |r.commands|
      ensures exists j :: 0 <= j < |t.commands| && t.commands[j].id == r.commands[k]
                          && (CoverageDeclared(t.commands) ==> r.id in t.commands[j].criteria)
    {
      CoveringCited(commands, id, k);
    }
  }

  /** Without repeated IDs every rule of the report's validators is met. */
  lemma AssembledIsValid(brief: seq<CriterionId>, producer: AgentId, iteration: nat, commit: Commit,
                         commands: seq<CommandEvidence>, manual: seq<CriterionId>, findings: seq<Text>)
    requires ValidInputs(brief, commands, findings) && ValidAssignment(brief, commands, manual)
    requires Distinct(CommandIds(commands)) && Distinct(manual)
    ensures ValidTestReport(TestReportOf(brief, producer, iteration, commit, commands, manual, findings))
  {
    hide StatusMatchesEvidence, CommandsCited, ReviewBoundaryKept, CriterionOutcome, BlockersOf, OverallStatus;
    hide CommandIds, CoverageDeclared, SomeCommandCovers;
    var t := TestReportOf(brief, producer, iteration, commit, commands, manual, findings);
    AssembledCoversBrief(brief, commands, manual);
    AssembledStatusMatches(brief, producer, iteration, commit, commands, manual, findings);
    BlockersDistinct(commands);
    forall i | 0 <= i < |t.criteria|
      ensures Distinct(t.criteria[i].commands) && CommandsCited(t, t.criteria[i])
              && ReviewBoundaryKept(t, t.criteria[i])
    {
      AssembledCriterionFits(t, commands, manual, brief[i]);
    }
  }

  lemma AssembledCoversBrief(brief: seq<CriterionId>, commands: seq<CommandEvidence>, manual: seq<CriterionId>)
    ensures CriterionIds(Outcomes(brief, commands, manual)) == brief
  {
    hide CoveringIds, TimedOutIds, FailedIds;
  }

  /** Producer and validator agree: an assembled report covers exactly the brief's criteria,
      in their order, and meets every rule of the report's validators unless an ID repeats. */
  lemma AssembledIsValidIff(brief: seq<CriterionId>, producer: AgentId, iteration: nat, commit: Commit,
                            commands: seq<CommandEvidence>, manual: seq<CriterionId>, findings: seq<Text>)
    requires ValidInputs(brief, commands, findings) && ValidAssignment(brief, commands, manual)
    ensures var t := TestReportOf(brief, producer, iteration, commit, commands, manual, findings);
            && CriterionIds(t.criteria) == brief
            && (ValidTestReport(t) <==> Distinct(CommandIds(commands)) && Distinct(manual))
  {
    hide StatusMatchesEvidence, CommandsCited, ReviewBoundaryKept, CriterionOutcome, BlockersOf, OverallStatus;
    hide ValidAssignment, ValidInputs, CommandIds;
    AssembledCoversBrief(brief, commands, manual);
    if Distinct(CommandIds(commands)) && Distinct(manual) {
      AssembledIsValid(brief, producer, iteration, commit, commands, manual, findings);
    }
  }
}
