/** The single-flight quality gate of one runner (dynamic_runner.py): any number of
    threads ask for the same evidence, one runs the gate, the others wait on the
    condition variable. A step is one critical section under the lock. */
module QualityGate {
  import opened Prelude
  import opened Runs

  datatype Phase = Pending | Running | Ready | Failed

  /** What a caller of `_ensure_quality_evidence` gets. */
  datatype Answer = Evidence(commands: seq<string>, commit: string) | Raised(detail: string)

  /** What the gate produced, before the commit is attached. */
  datatype GateRun = Produced(commands: seq<string>) | GateError(detail: string)

  /** The fields guarded by the condition variable. */
  datatype Shared = Shared(
    phase: Phase,
    commands: seq<string>,
    commit: Option<string>,
    error: Option<string>,
    latestCommit: string,
    gateCalls: nat)

  datatype Admission = Wait | Answered(answer: Answer) | RunGate(expected: string)

  predicate Consistent(g: Shared) {
    && (g.phase.Ready? ==> g.commit.Some?)
    && (g.phase.Failed? ==> g.error.Some?)
  }

  function StoredAnswer(g: Shared): Answer
    requires Consistent(g) && (g.phase.Ready? || g.phase.Failed?)
  {
    if g.phase.Ready? then Evidence(g.commands, g.commit.value) else Raised(g.error.value)
  }

  /** The first critical section, entered on call and again after each wake-up. */
  function Admit(g: Shared): (Shared, Admission)
    requires Consistent(g)
  {
    match g.phase
    case Running => (g, Wait)
    case Ready => (g, Answered(StoredAnswer(g)))
    case Failed => (g, Answered(StoredAnswer(g)))
    case Pending => (g.(phase := Running, gateCalls := g.gateCalls + 1), RunGate(g.latestCommit))
  }

  function AnswerOf(expected: string, run: GateRun): Answer {
    match run
    case Produced(commands) => Evidence(commands, expected)
    case GateError(detail) => Raised(detail)
  }

  /** The closing critical section of the thread that ran the gate. */
  function Publish(g: Shared, expected: string, run: GateRun): (g': Shared)
    ensures Consistent(g) ==> Consistent(g')
  {
    match run
    case Produced(commands) => g.(commands := commands, commit := Some(expected), phase := Ready)
    case GateError(detail) => g.(error := Some(detail), phase := Failed)
  }

  /** The same two sections on the runner's own fields. */
  class Monitor {
    var qualityState: Phase
    var qualityCommands: seq<string>
    var qualityCommit: Option<string>
    var qualityError: Option<string>
    var latestCommit: string
    var qualityGateCalls: nat

    ghost function State(): Shared
      reads this
    {
      Shared(qualityState, qualityCommands, qualityCommit, qualityError, latestCommit, qualityGateCalls)
    }

    constructor (verifiedCommit: string)
      ensures State() == Shared(Pending, [], None, None, verifiedCommit, 0)
    {
      qualityState, qualityCommands, qualityCommit, qualityError := Pending, [], None, None;
      latestCommit, qualityGateCalls := verifiedCommit, 0;
    }

    method Enter() returns (admission: Admission)
      requires Consistent(State())
      modifies this
      ensures (State(), admission) == Admit(old(State()))
    {
      if qualityState.Running? { return Wait; }
      if qualityState.Ready? { return Answered(Evidence(qualityCommands, qualityCommit.value)); }
      if qualityState.Failed? { return Answered(Raised(qualityError.value)); }
      qualityState := Running;
      qualityGateCalls := qualityGateCalls + 1;
      return RunGate(latestCommit);
    }

    method Leave(expected: string, run: GateRun) returns (answer: Answer)
      modifies this
      ensures State() == Publish(old(State()), expected, run)
      ensures answer == AnswerOf(expected, run)
    {
      match run {
        case GateError(detail) =>
          qualityError := Some(detail);
          qualityState := Failed;
          answer := Raised(detail);
        case Produced(commands) =>
          qualityCommands := commands;
          qualityCommit := Some(expected);
          qualityState := Ready;
          answer := Evidence(commands, expected);
      }
    }
  }

  // ----------------------------------------------------------------- threads

  /** Where one caller is: not yet inside, asleep on the condition, notified but
      not yet running again, running the gate, or returned. */
  datatype Caller = Outside | Asleep | Notified | Gating(expected: string) | Returned(answer: Answer)

  datatype System = System(shared: Shared, callers: seq<Caller>)

  datatype Event =
    | Proceed(thread: nat)                // enter, or re-check after a wake-up
    | Finish(thread: nat, run: GateRun)   // the gate run of this thread ends
    | WriterDone(input: string, output: string)

  function Wake(c: Caller): Caller {
    if c.Asleep? then Notified else c
  }

  function WakeAll(callers: seq<Caller>): (r: seq<Caller>)
    ensures |r| == |callers|
  {
    seq(|callers|, i requires 0 <= i < |callers| => Wake(callers[i]))
  }

  function Moved(a: Admission): Caller {
    match a
    case Wait => Asleep
    case Answered(answer) => Returned(answer)
    case RunGate(expected) => Gating(expected)
  }

  predicate Enabled(s: System, e: Event) {
    match e
    case Proceed(t) => t < |s.callers| && (s.callers[t].Outside? || s.callers[t].Notified?)
    case Finish(t, _) => t < |s.callers| && s.callers[t].Gating?
    case WriterDone(_, _) => false
  }

  function Step(s: System, e: Event): System {
    match e
    case Proceed(t) =>
      if Enabled(s, e) && Consistent(s.shared) then
        var (g, a) := Admit(s.shared);
        System(g, s.callers[t := Moved(a)])
      else s
    case Finish(t, run) =>
      if Enabled(s, e) then
        var expected := s.callers[t].expected;
        System(Publish(s.shared, expected, run), WakeAll(s.callers[t := Returned(AnswerOf(expected, run))]))
      else s
    case WriterDone(input, output) =>
      if s.shared.latestCommit == input then s.(shared := s.shared.(latestCommit := output)) else s
  }

  function Start(commit: string, threads: nat): System {
    System(Shared(Pending, [], None, None, commit, 0), seq(threads, _ => Outside))
  }

  function After(commit: string, threads: nat, events: seq<Event>): System {
    Run(Step, Start(commit, threads), events)
  }

  // --------------------------------------------------------------- invariant

  ghost predicate CallerFits(g: Shared, c: Caller)
    requires Consistent(g)
  {
    match c
    case Outside => true
    case Asleep => g.phase.Running?
    case Notified => g.phase.Ready? || g.phase.Failed?
    case Gating(_) => g.phase.Running?
    case Returned(answer) => (g.phase.Ready? || g.phase.Failed?) && answer == StoredAnswer(g)
  }

  ghost predicate SingleFlight(s: System) {
    && Consistent(s.shared)
    && s.shared.gateCalls == (if s.shared.phase.Pending? then 0 else 1)
    && (forall i :: 0 <= i < |s.callers| ==> CallerFits(s.shared, s.callers[i]))
    && (forall i, j :: 0 <= i < j < |s.callers| ==> !(s.callers[i].Gating? && s.callers[j].Gating?))
    && (s.shared.phase.Running? ==> exists i :: 0 <= i < |s.callers| && s.callers[i].Gating?)
  }

  lemma StepKeepsSingleFlight(s: System, e: Event)
    requires SingleFlight(s)
    ensures SingleFlight(Step(s, e)) && |Step(s, e).callers| == |s.callers|
  {
    var s' := Step(s, e);
    match e
    case Proceed(t) =>
      if Enabled(s, e) {
        if s.shared.phase.Pending? { assert s'.callers[t].Gating?; }
        if s.shared.phase.Running? {
          var i :| 0 <= i < |s.callers| && s.callers[i].Gating?;
          assert s'.callers[i].Gating?;
        }
      }
    case Finish(t, run) =>
    case WriterDone(input, output) =>
      if s.shared.phase.Running? {
        var i :| 0 <= i < |s.callers| && s.callers[i].Gating?;
        assert s'.callers[i].Gating?;
      }
  }

  lemma SingleFlightAlways(commit: string, threads: nat, events: seq<Event>)
    ensures SingleFlight(After(commit, threads, events))
    ensures |After(commit, threads, events).callers| == threads
  {
    var inv := s => SingleFlight(s) && |s.callers| == threads;
    forall s, e | inv(s) ensures inv(Step(s, e)) { StepKeepsSingleFlight(s, e); }
    RunKeeps(Step, inv, Start(commit, threads), events);
  }

  // ---------------------------------------------------------------- theorems

  /** In every interleaving the gate runs at most once, nobody has returned while
      it runs, and nobody sleeps once its outcome is stored. */
  lemma GateRunsAtMostOnce(commit: string, threads: nat, events: seq<Event>, t: nat)
    requires t < threads
    ensures var s := After(commit, threads, events);
            && t < |s.callers|
            && s.shared.gateCalls <= 1
            && (s.callers[t].Returned? ==> s.shared.phase.Ready? || s.shared.phase.Failed?)
            && (s.callers[t].Asleep? ==> s.shared.phase.Running?)
  {
    SingleFlightAlways(commit, threads, events);
  }

  lemma StepKeepsAnswer(s: System, e: Event)
    requires SingleFlight(s) && (s.shared.phase.Ready? || s.shared.phase.Failed?)
    ensures Step(s, e).shared == s.shared.(latestCommit := Step(s, e).shared.latestCommit)
  {
  }

  /** Two callers that return, at whatever times, return the same commands on the
      same commit, or raise the same error. */
  lemma CallersAgree(commit: string, threads: nat, events: seq<Event>, later: seq<Event>, t: nat, u: nat)
    requires t < threads && u < threads
    ensures var s, s' := After(commit, threads, events), After(commit, threads, events + later);
            && t < |s.callers| && u < |s'.callers|
            && (s.callers[t].Returned? && s'.callers[u].Returned? ==> s.callers[t] == s'.callers[u])
  {
    SingleFlightAlways(commit, threads, events);
    SingleFlightAlways(commit, threads, events + later);
    var s := After(commit, threads, events);
    if s.callers[t].Returned? {
      assert CallerFits(s.shared, s.callers[t]);
      var inv := x => SingleFlight(x) && (x.shared.phase.Ready? || x.shared.phase.Failed?)
                      && StoredAnswer(x.shared) == s.callers[t].answer;
      forall x, e | inv(x) ensures inv(Step(x, e)) {
        StepKeepsSingleFlight(x, e);
        StepKeepsAnswer(x, e);
      }
      RunKeeps(Step, inv, s, later);
      RunConcat(Step, Start(commit, threads), events, later);
    }
  }

  // ---------------------------------------------------------------- progress

  /** Steps a caller can still take. */
  function Remaining(c: Caller): nat {
    match c
    case Outside => 2
    case Asleep => 1
    case Notified => 1
    case Gating(_) => 1
    case Returned(_) => 0
  }

  function Work(callers: seq<Caller>): nat {
    if callers == [] then 0 else Work(callers[..|callers| - 1]) + Remaining(callers[|callers| - 1])
  }

  lemma {:induction false} WorkUpdate(callers: seq<Caller>, t: nat, c: Caller)
    requires t < |callers|
    ensures Work(callers[t := c]) + Remaining(callers[t]) == Work(callers) + Remaining(c)
  {
    var n := |callers| - 1;
    if t < n {
      WorkUpdate(callers[..n], t, c);
      assert callers[t := c][..n] == callers[..n][t := c];
    } else {
      assert callers[t := c][..n] == callers[..n];
    }
  }

  lemma {:induction false} WorkWake(callers: seq<Caller>)
    ensures Work(WakeAll(callers)) <= Work(callers)
  {
    if callers == [] {
    } else {
      var n := |callers| - 1;
      WorkWake(callers[..n]);
      assert WakeAll(callers)[..n] == WakeAll(callers[..n]);
    }
  }

  lemma {:induction false} WorkBound(callers: seq<Caller>)
    ensures Work(callers) <= 2 * |callers|
  {
    if callers == [] {
    } else {
      WorkBound(callers[..|callers| - 1]);
    }
  }

  lemma StepsUseUpWork(s: System, e: Event)
    requires SingleFlight(s)
    ensures Work(Step(s, e).callers) + (if Enabled(s, e) then 1 else 0) <= Work(s.callers)
  {
    hide Work, StoredAnswer, Publish;
    if Enabled(s, e) {
      match e
      case Proceed(t) =>
        assert CallerFits(s.shared, s.callers[t]);
        WorkUpdate(s.callers, t, Moved(Admit(s.shared).1));
      case Finish(t, run) =>
        var returned := Returned(AnswerOf(s.callers[t].expected, run));
        WorkUpdate(s.callers, t, returned);
        WorkWake(s.callers[t := returned]);
    }
  }

  /** No interleaving keeps the callers busy: at most two steps each. */
  lemma StepsAreBounded(commit: string, threads: nat, events: seq<Event>)
    ensures Count(Step, Enabled, Start(commit, threads), events) <= 2 * threads
  {
    var start := Start(commit, threads);
    var inv := s => SingleFlight(s) && |s.callers| == threads;
    forall s, e | inv(s)
      ensures inv(Step(s, e))
      ensures (2 * threads - Work(s.callers) as int) + (if Enabled(s, e) then 1 else 0)
              <= 2 * threads - Work(Step(s, e).callers)
    {
      StepKeepsSingleFlight(s, e);
      StepsUseUpWork(s, e);
    }
    var measure := (s: System) => if Work(s.callers) <= 2 * threads then 2 * threads - Work(s.callers) else 0;
    forall s, e | inv(s)
      ensures measure(s) + (if Enabled(s, e) then 1 else 0) <= measure(Step(s, e))
    {
      WorkBound(s.callers);
      WorkBound(Step(s, e).callers);
    }
    CountWithin(Step, Enabled, inv, measure, start, events);
  }

  /** No deadlock: while a caller has not returned, some thread can step, whatever
      the gate would answer. With StepsAreBounded, every run that goes on as long
      as it can ends with all callers returned. */
  lemma SomeThreadCanStep(commit: string, threads: nat, events: seq<Event>, t: nat, run: GateRun)
    returns (e: Event)
    requires t < |After(commit, threads, events).callers|
    requires !After(commit, threads, events).callers[t].Returned?
    ensures Enabled(After(commit, threads, events), e)
    ensures e.Finish? ==> e.run == run
  {
    SingleFlightAlways(commit, threads, events);
    var s := After(commit, threads, events);
    if s.callers[t].Asleep? {
      assert CallerFits(s.shared, s.callers[t]);
      var owner: nat :| owner < |s.callers| && s.callers[owner].Gating?;
      e := Finish(owner, run);
    } else if s.callers[t].Gating? {
      e := Finish(t, run);
    } else {
      e := Proceed(t);
    }
  }
}
