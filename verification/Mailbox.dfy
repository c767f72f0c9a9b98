/** The control mailbox of one run (controls.py): hash-chained revision histories,
    the two operations that write them and the loader that reads them back. */
module Mailbox {
  import opened Prelude
  import opened Runs

  // ------------------------------------------------------------- data model

  datatype CommandType = Guide | Correct | Pause | Resume | Interrupt | Cancel
  datatype Status = Queued | Applied | RejectedStatus | Superseded | BestEffortFailed
  datatype TargetKind = RunTarget | AgentTarget | PhaseTarget | FutureWork
  datatype Boundary = Immediate | BeforeNextInvocation | NextSafeCheckpoint | PlanningRevision
  datatype Target = Target(kind: TargetKind, agentId: Option<string>, attempt: Option<int>, phase: Option<string>)

  type Digest = nat

  datatype Command = Command(
    commandId: string,
    runId: string,
    requestSequence: int,
    revision: int,
    requestedAt: int,
    updatedAt: int,
    command: CommandType,
    instruction: Option<string>,
    target: Target,
    boundary: Boundary,
    status: Status,
    consequence: Option<string>,
    caveat: Option<string>,
    planRevision: Option<int>,
    lifecycleRevision: Option<int>,
    previous: Option<Digest>)

  predicate ValidTarget(t: Target) {
    && (t.kind.AgentTarget? ==> t.agentId.Some? && t.phase.None?)
    && (!t.kind.AgentTarget? ==> t.agentId.None? && t.attempt.None?)
    && (t.attempt.Some? ==> t.attempt.value >= 1)
    && (t.kind.PhaseTarget? <==> t.phase.Some?)
  }

  predicate AllowedTarget(c: CommandType, k: TargetKind) {
    match c
    case Guide => k.AgentTarget? || k.PhaseTarget? || k.FutureWork?
    case Correct => k.RunTarget? || k.FutureWork?
    case Interrupt => k.AgentTarget?
    case Pause | Resume | Cancel => k.RunTarget?
  }

  predicate AllowedBoundary(c: CommandType, b: Boundary) {
    match c
    case Guide => b.BeforeNextInvocation? || b.NextSafeCheckpoint?
    case Correct => b.PlanningRevision?
    case Pause | Resume => b.NextSafeCheckpoint?
    case Interrupt | Cancel => b.Immediate?
  }

  predicate TextWithin(text: Option<string>, limit: nat) {
    text.Some? ==> 0 < |text.value| <= limit
  }

  predicate IsNameChar(c: char) {
    'a' <= c <= 'z' || '0' <= c <= '9'
  }

  /** `ctl-[a-z0-9][a-z0-9-]*`. */
  predicate IsCommandId(id: string) {
    && "ctl-" <= id && |id| > 4 && IsNameChar(id[4])
    && forall i :: 4 < i < |id| ==> IsNameChar(id[i]) || id[i] == '-'
  }

  /** Field rules and `ControlCommand.validate_command`. */
  predicate ValidCommand(c: Command) {
    && IsCommandId(c.commandId) && c.requestSequence >= 1 && c.revision >= 1
    && TextWithin(c.instruction, 2000) && TextWithin(c.consequence, 500) && TextWithin(c.caveat, 500)
    && (c.planRevision.Some? ==> c.planRevision.value >= 1)
    && (c.lifecycleRevision.Some? ==> c.lifecycleRevision.value >= 0)
    && c.requestedAt <= c.updatedAt
    && (if c.revision == 1 then c.previous.None? && c.status.Queued? else c.previous.Some?)
    && (if c.status.Queued? then
          && c.revision == 1 && c.updatedAt == c.requestedAt
          && c.consequence.None? && c.caveat.None? && c.planRevision.None? && c.lifecycleRevision.None?
        else c.consequence.Some?)
    && (!c.status.Applied? ==> c.planRevision.None? && c.lifecycleRevision.None?)
    && (c.command.Guide? || c.command.Correct? <==> c.instruction.Some?)
    && ValidTarget(c.target) && AllowedTarget(c.command, c.target.kind) && AllowedBoundary(c.command, c.boundary)
  }

  // ---------------------------------------------------------------- histories

  /** One file of a command directory; a listing is in file-name order. */
  datatype RevisionFile = RevisionFile(number: nat, content: Command)

  type Listing = seq<RevisionFile>

  /** The run, and the canonical digest of a stored command. */
  datatype Context = Context(runId: string, digest: Command -> Digest)

  predicate SameRequest(a: Command, b: Command) {
    && a.commandId == b.commandId && a.runId == b.runId && a.requestSequence == b.requestSequence
    && a.requestedAt == b.requestedAt && a.command == b.command && a.instruction == b.instruction
    && a.target == b.target && a.boundary == b.boundary
  }

  /** The loader's checks on file `i`, given the ones before it. */
  predicate FileAccepted(ctx: Context, id: string, files: Listing, i: nat)
    requires i < |files|
  {
    var c := files[i].content;
    && files[i].number == i + 1
    && ValidCommand(c)
    && c.commandId == id && c.runId == ctx.runId && c.revision == i + 1
    && c.previous == (if i == 0 then None else Some(ctx.digest(files[i - 1].content)))
    && (i > 0 ==> SameRequest(c, files[i - 1].content) && files[i - 1].content.status.Queued?)
  }

  predicate Accepted(ctx: Context, id: string, files: Listing) {
    files != [] && forall i :: 0 <= i < |files| ==> FileAccepted(ctx, id, files, i)
  }

  /** `_load_unlocked`: None where it raises. */
  method LoadHistory(ctx: Context, id: string, files: Listing) returns (history: Option<seq<Command>>)
    ensures history.Some? <==> Accepted(ctx, id, files)
    ensures history.Some? ==>
              |history.value| == |files| && forall i :: 0 <= i < |files| ==> history.value[i] == files[i].content
  {
    var loaded := [];
    for i := 0 to |files|
      invariant |loaded| == i && forall j :: 0 <= j < i ==> loaded[j] == files[j].content
      invariant forall j :: 0 <= j < i ==> FileAccepted(ctx, id, files, j)
    {
      var record := files[i].content;
      ghost var accepted := FileAccepted(ctx, id, files, i);
      if files[i].number != i + 1 { return None; }
      if !ValidCommand(record) { return None; }
      if record.commandId != id || record.runId != ctx.runId || record.revision != i + 1 { return None; }
      var expected := if i == 0 then None else Some(ctx.digest(loaded[i - 1]));
      if record.previous != expected { return None; }
      if i > 0 && (!SameRequest(record, loaded[i - 1]) || !loaded[i - 1].status.Queued?) { return None; }
      loaded := loaded + [record];
    }
    if loaded == [] { return None; }
    return Some(loaded);
  }

  // ------------------------------------------------------------------ writers

  datatype RequestArgs = RequestArgs(
    command: CommandType, target: Target, boundary: Boundary, instruction: Option<string>, commandId: string)

  datatype ResolveArgs = ResolveArgs(
    status: Status, consequence: string, caveat: Option<string>,
    planRevision: Option<int>, lifecycleRevision: Option<int>)

  function NewRequest(ctx: Context, args: RequestArgs, sequence: int, now: int): Command {
    Command(args.commandId, ctx.runId, sequence, 1, now, now, args.command, args.instruction, args.target,
            args.boundary, Queued, None, None, None, None, None)
  }

  function NewResolution(ctx: Context, current: Command, args: ResolveArgs, now: int): Command {
    current.(revision := current.revision + 1, updatedAt := now, status := args.status,
             consequence := Some(args.consequence), caveat := args.caveat,
             planRevision := args.planRevision, lifecycleRevision := args.lifecycleRevision,
             previous := Some(ctx.digest(current)))
  }

  /** A history some sequence of writer calls produces. */
  ghost predicate Written(ctx: Context, id: string, files: Listing) {
    exists args: RequestArgs, sequence: int, now: int ::
      var first := NewRequest(ctx, args, sequence, now);
      && ValidCommand(first) && args.commandId == id
      && (|| files == [RevisionFile(1, first)]
          || exists resolve: ResolveArgs, later: int ::
               var second := NewResolution(ctx, first, resolve, later);
               && !resolve.status.Queued? && ValidCommand(second)
               && files == [RevisionFile(1, first), RevisionFile(2, second)])
  }

  /** Revision 2 cannot be queued, and a resolved revision has no successor. */
  lemma NoThirdRevision(ctx: Context, id: string, files: Listing)
    requires |files| >= 3 && FileAccepted(ctx, id, files, 1)
    ensures !FileAccepted(ctx, id, files, 2)
  {
  }

  /** Every accepted history is a request, resolved or not. */
  lemma AcceptedLength(ctx: Context, id: string, files: Listing)
    requires Accepted(ctx, id, files)
    ensures 1 <= |files| <= 2
    ensures files[0].content.status.Queued?
    ensures |files| == 2 ==> !files[1].content.status.Queued?
  {
    assert FileAccepted(ctx, id, files, 0);
    if |files| >= 2 {
      assert FileAccepted(ctx, id, files, 1);
      if |files| >= 3 { NoThirdRevision(ctx, id, files); }
    }
  }

  /** The loader accepts exactly the histories the writers can build. */
  lemma AcceptedIffWritten(ctx: Context, id: string, files: Listing)
    ensures Accepted(ctx, id, files) <==> Written(ctx, id, files)
  {
    if Accepted(ctx, id, files) {
      AcceptedLength(ctx, id, files);
      var c := files[0].content;
      assert FileAccepted(ctx, id, files, 0);
      var args := RequestArgs(c.command, c.target, c.boundary, c.instruction, c.commandId);
      assert NewRequest(ctx, args, c.requestSequence, c.requestedAt) == c;
      if |files| == 2 {
        var d := files[1].content;
        assert FileAccepted(ctx, id, files, 1);
        var resolve := ResolveArgs(d.status, d.consequence.value, d.caveat, d.planRevision, d.lifecycleRevision);
        assert NewResolution(ctx, c, resolve, d.updatedAt) == d;
      }
    }
    if Written(ctx, id, files) {
      assert FileAccepted(ctx, id, files, 0);
      if |files| == 2 { assert FileAccepted(ctx, id, files, 1); }
    }
  }

  /** With a collision-free digest the last revision pins the whole history. */
  lemma LastRevisionPinsHistory(ctx: Context, id: string, a: Listing, b: Listing)
    requires forall c, d :: ctx.digest(c) == ctx.digest(d) ==> c == d
    requires Accepted(ctx, id, a) && Accepted(ctx, id, b)
    requires a[|a| - 1].content == b[|b| - 1].content
    ensures a == b
  {
    AcceptedLength(ctx, id, a);
    AcceptedLength(ctx, id, b);
    assert FileAccepted(ctx, id, a, 0) && FileAccepted(ctx, id, b, 0);
    assert FileAccepted(ctx, id, a, |a| - 1) && FileAccepted(ctx, id, b, |b| - 1);
  }

  // -------------------------------------------------------------------- store

  type Histories = map<string, Listing>

  function SequenceOf(files: Listing): int {
    if files == [] then 0 else files[0].content.requestSequence
  }

  predicate HasSequence(h: Histories, k: int) {
    exists id :: id in h && SequenceOf(h[id]) == k
  }

  /** `sorted(sequences) == list(range(1, n + 1))` for the n commands: none is
      outside 1..n and none of 1..n is missing. */
  predicate Contiguous(h: Histories) {
    && (forall id :: id in h ==> 1 <= SequenceOf(h[id]) <= |h|)
    && forall k :: 1 <= k <= |h| ==> HasSequence(h, k)
  }

  predicate Loadable(ctx: Context, h: Histories) {
    (forall id :: id in h ==> IsCommandId(id) && Accepted(ctx, id, h[id])) && Contiguous(h)
  }

  /** Where a file operation of a writer fails: before the rename takes effect, or
      in the directory sync after it. */
  datatype Fault = NoFault | BeforeRename | AfterRename

  datatype Event =
    | Request(args: RequestArgs, now: int, fault: Fault)
    | Resolve(id: string, expected: int, resolution: ResolveArgs, at: int, failing: Fault)

  datatype Reply = Recorded(command: Command) | Refused | WriteFailed

  function RequestStep(ctx: Context, h: Histories, args: RequestArgs, now: int, fault: Fault): (Histories, Reply) {
    if !Loadable(ctx, h) then (h, Refused)
    else
      var record := NewRequest(ctx, args, |h| + 1, now);
      if !ValidCommand(record) || record.commandId in h then (h, Refused)
      else if fault.BeforeRename? then (h, WriteFailed)
      else (h[record.commandId := [RevisionFile(1, record)]],
            if fault.AfterRename? then WriteFailed else Recorded(record))
  }

  function ResolveStep(ctx: Context, h: Histories, id: string, expected: int, args: ResolveArgs, now: int,
                       fault: Fault): (Histories, Reply) {
    if args.status.Queued? || !IsCommandId(id) || id !in h || !Accepted(ctx, id, h[id]) then (h, Refused)
    else
      var current := h[id][|h[id]| - 1].content;
      if current.revision != expected || !current.status.Queued? then (h, Refused)
      else
        var updated := NewResolution(ctx, current, args, now);
        if !ValidCommand(updated) then (h, Refused)
        else if fault.BeforeRename? then (h, WriteFailed)
        else (h[id := h[id] + [RevisionFile(current.revision + 1, updated)]],
              if fault.AfterRename? then WriteFailed else Recorded(updated))
  }

  function Step(ctx: Context, h: Histories, e: Event): Histories {
    match e
    case Request(args, now, fault) => RequestStep(ctx, h, args, now, fault).0
    case Resolve(id, expected, args, now, fault) => ResolveStep(ctx, h, id, expected, args, now, fault).0
  }

  function StepOf(ctx: Context): (Histories, Event) -> Histories {
    (h, e) => Step(ctx, h, e)
  }

  function After(ctx: Context, events: seq<Event>): Histories {
    Run(StepOf(ctx), map[], events)
  }

  /** A sequence stays on file when a history with another one, or the same one extended, is stored. */
  lemma SequenceStays(h: Histories, id: string, files: Listing, k: int)
    requires HasSequence(h, k) && (id in h ==> SequenceOf(files) == SequenceOf(h[id]))
    ensures HasSequence(h[id := files], k)
  {
    hide SequenceOf;
    var other :| other in h && SequenceOf(h[other]) == k;
    assert other in h[id := files] && SequenceOf(h[id := files][other]) == k;
  }

  lemma AddedSequence(h: Histories, id: string, files: Listing)
    requires Contiguous(h) && id !in h && SequenceOf(files) == |h| + 1
    ensures Contiguous(h[id := files])
  {
    hide HasSequence, SequenceOf;
    var h' := h[id := files];
    assert h'.Keys == h.Keys + {id};
    assert |h'| == |h| + 1;
    forall k | 1 <= k <= |h'| ensures HasSequence(h', k) {
      if k == |h| + 1 { NewSequence(h, id, files); } else { SequenceStays(h, id, files, k); }
    }
  }

  lemma NewSequence(h: Histories, id: string, files: Listing)
    ensures HasSequence(h[id := files], SequenceOf(files))
  {
    assert id in h[id := files] && h[id := files][id] == files;
  }

  lemma ExtendedSequence(h: Histories, id: string, files: Listing)
    requires Contiguous(h) && id in h && SequenceOf(files) == SequenceOf(h[id])
    ensures Contiguous(h[id := files])
  {
    hide HasSequence, SequenceOf;
    var h' := h[id := files];
    assert h'.Keys == h.Keys;
    assert |h'| == |h|;
    forall k | 1 <= k <= |h'| ensures HasSequence(h', k) {
      SequenceStays(h, id, files, k);
    }
  }

  lemma ResolutionAccepted(ctx: Context, id: string, files: Listing, args: ResolveArgs, now: int)
    requires Accepted(ctx, id, files) && files[|files| - 1].content.status.Queued? && !args.status.Queued?
    requires ValidCommand(NewResolution(ctx, files[|files| - 1].content, args, now))
    ensures var c := files[|files| - 1].content;
            Accepted(ctx, id, files + [RevisionFile(c.revision + 1, NewResolution(ctx, c, args, now))])
  {
    AcceptedLength(ctx, id, files);
    var c := files[|files| - 1].content;
    var files' := files + [RevisionFile(c.revision + 1, NewResolution(ctx, c, args, now))];
    assert FileAccepted(ctx, id, files, |files| - 1);
    forall i | 0 <= i < |files'| ensures FileAccepted(ctx, id, files', i) {
      if i < |files| { assert FileAccepted(ctx, id, files, i); }
    }
  }

  lemma RequestKeepsLoadable(ctx: Context, h: Histories, record: Command)
    requires Loadable(ctx, h) && ValidCommand(record) && record.commandId !in h
    requires record.runId == ctx.runId && record.revision == 1 && record.requestSequence == |h| + 1
    ensures Loadable(ctx, h[record.commandId := [RevisionFile(1, record)]])
  {
    var files := [RevisionFile(1, record)];
    AddedSequence(h, record.commandId, files);
    assert FileAccepted(ctx, record.commandId, files, 0);
  }

  lemma ReplacementKeepsLoadable(ctx: Context, h: Histories, id: string, files: Listing)
    requires Loadable(ctx, h) && id in h && Accepted(ctx, id, files) && SequenceOf(files) == SequenceOf(h[id])
    ensures Loadable(ctx, h[id := files])
  {
    ExtendedSequence(h, id, files);
  }

  lemma StepKeepsLoadable(ctx: Context, h: Histories, e: Event)
    requires Loadable(ctx, h)
    ensures Loadable(ctx, Step(ctx, h, e))
  {
    var h' := Step(ctx, h, e);
    if h' != h {
      match e
      case Request(args, now, fault) =>
        RequestKeepsLoadable(ctx, h, NewRequest(ctx, args, |h| + 1, now));
      case Resolve(id, expected, args, now, fault) =>
        ResolutionAccepted(ctx, id, h[id], args, now);
        ReplacementKeepsLoadable(ctx, h, id, h'[id]);
    }
  }

  // ----------------------------------------------------------------- theorems

  /** After any sequence of requests and resolutions, with file operations failing
      anywhere, the loader accepts every history and the request sequences are
      exactly 1..n. */
  lemma MailboxAlwaysLoads(ctx: Context, events: seq<Event>)
    ensures Loadable(ctx, After(ctx, events))
  {
    var empty: Histories := map[];
    assert Loadable(ctx, empty);
    forall h, e | Loadable(ctx, h) ensures Loadable(ctx, StepOf(ctx)(h, e)) { StepKeepsLoadable(ctx, h, e); }
    RunKeeps(StepOf(ctx), h => Loadable(ctx, h), empty, events);
  }

  ghost predicate Extends(h: Histories, h': Histories) {
    forall id :: id in h ==> id in h' && h[id] <= h'[id]
  }

  lemma StepExtends(ctx: Context, h: Histories, e: Event)
    ensures Extends(h, Step(ctx, h, e))
  {
  }

  /** Histories only grow: no recorded revision, and so no request metadata, ever
      changes; a command once resolved keeps exactly its two revisions. */
  lemma HistoriesOnlyGrow(ctx: Context, events: seq<Event>, later: seq<Event>, id: string)
    requires id in After(ctx, events)
    ensures var h, h' := After(ctx, events), After(ctx, events + later);
            && id in h' && h[id] <= h'[id] && 1 <= |h'[id]| <= 2
            && (|h[id]| == 2 ==> h'[id] == h[id])
  {
    var h := After(ctx, events);
    var inv := x => Extends(h, x);
    forall x, e | inv(x) ensures inv(StepOf(ctx)(x, e)) {
      StepExtends(ctx, x, e);
      var y := Step(ctx, x, e);
      forall k | k in h ensures k in y && h[k] <= y[k] { assert k in x && x[k] <= y[k]; }
    }
    RunKeeps(StepOf(ctx), inv, h, later);
    RunConcat(StepOf(ctx), map[], events, later);
    MailboxAlwaysLoads(ctx, events + later);
    AcceptedLength(ctx, id, After(ctx, events + later)[id]);
  }

  /** A command is resolved at most once: after a resolution is on file, whether or
      not its caller was told so, every further one is refused. */
  lemma ResolvedOnce(ctx: Context, events: seq<Event>, id: string, expected: int, args: ResolveArgs, now: int,
                     fault: Fault)
    requires id in After(ctx, events) && |After(ctx, events)[id]| == 2
    ensures ResolveStep(ctx, After(ctx, events), id, expected, args, now, fault)
            == (After(ctx, events), Refused)
  {
    MailboxAlwaysLoads(ctx, events);
    AcceptedLength(ctx, id, After(ctx, events)[id]);
  }

  // -------------------------------------------------------------------- class

  /** The latest revision of an accepted history names its command and its request. */
  lemma LatestOf(ctx: Context, id: string, files: Listing)
    requires Accepted(ctx, id, files)
    ensures files != [] && files[|files| - 1].content.commandId == id
    ensures files[|files| - 1].content.requestSequence == SequenceOf(files)
  {
    hide ValidCommand;
    AcceptedLength(ctx, id, files);
    assert FileAccepted(ctx, id, files, |files| - 1) && FileAccepted(ctx, id, files, 0);
  }

  /** The store with its directories; each method is one locked section. */
  class ControlCommandStore {
    const ctx: Context
    var histories: Histories

    constructor (ctx: Context)
      ensures this.ctx == ctx && histories == map[]
    {
      this.ctx := ctx;
      histories := map[];
    }

    method CheckMailbox() returns (ok: bool)
      ensures ok == Loadable(ctx, histories)
    {
      var remaining := histories.Keys;
      while remaining != {}
        invariant remaining <= histories.Keys
        invariant forall id :: id in histories.Keys - remaining ==>
                    IsCommandId(id) && Accepted(ctx, id, histories[id])
        decreases remaining
      {
        var id :| id in remaining;
        if !IsCommandId(id) { return false; }
        var loaded := LoadHistory(ctx, id, histories[id]);
        if loaded.None? { return false; }
        remaining := remaining - {id};
      }
      return Contiguous(histories);
    }

    method SubmitRequest(args: RequestArgs, now: int, fault: Fault) returns (reply: Reply)
      modifies this
      ensures (histories, reply) == RequestStep(ctx, old(histories), args, now, fault)
    {
      var ok := CheckMailbox();
      if !ok { return Refused; }
      var record := NewRequest(ctx, args, |histories| + 1, now);
      if !ValidCommand(record) { return Refused; }
      if record.commandId in histories { return Refused; }
      if fault.BeforeRename? { return WriteFailed; }
      histories := histories[record.commandId := [RevisionFile(1, record)]];
      return if fault.AfterRename? then WriteFailed else Recorded(record);
    }

    method ResolveCommand(id: string, expected: int, args: ResolveArgs, now: int, fault: Fault) returns (reply: Reply)
      modifies this
      ensures (histories, reply) == ResolveStep(ctx, old(histories), id, expected, args, now, fault)
    {
      if args.status.Queued? || !IsCommandId(id) || id !in histories { return Refused; }
      var loaded := LoadHistory(ctx, id, histories[id]);
      if loaded.None? { return Refused; }
      var current := loaded.value[|loaded.value| - 1];
      if current.revision != expected || !current.status.Queued? { return Refused; }
      var updated := NewResolution(ctx, current, args, now);
      if !ValidCommand(updated) { return Refused; }
      if fault.BeforeRename? { return WriteFailed; }
      histories := histories[id := histories[id] + [RevisionFile(current.revision + 1, updated)]];
      return if fault.AfterRename? then WriteFailed else Recorded(updated);
    }

    /** `list_latest`: the latest revision of every command in request order. */
    method ListLatest() returns (latest: Option<seq<Command>>)
      ensures latest.Some? <==> Loadable(ctx, histories)
      ensures latest.Some? ==>
                && |latest.value| == |histories|
                && (forall i :: 0 <= i < |latest.value| ==> latest.value[i].requestSequence == i + 1)
                && (forall i :: 0 <= i < |latest.value| ==>
                      && latest.value[i].commandId in histories
                      && var files := histories[latest.value[i].commandId];
                         files != [] && latest.value[i] == files[|files| - 1].content)
    {
      hide Accepted, IsCommandId;
      var ok := CheckMailbox();
      if !ok { return None; }
      var listed: seq<Command> := [];
      for k := 0 to |histories|
        invariant |listed| == k
        invariant forall i :: 0 <= i < k ==> listed[i].requestSequence == i + 1
        invariant forall i :: 0 <= i < k ==>
                    && listed[i].commandId in histories
                    && var files := histories[listed[i].commandId];
                       files != [] && listed[i] == files[|files| - 1].content
      {
        assert HasSequence(histories, k + 1);
        var id :| id in histories && SequenceOf(histories[id]) == k + 1;
        var files := histories[id];
        LatestOf(ctx, id, files);
        listed := listed + [files[|files| - 1].content];
      }
      return Some(listed);
    }
  }
}
