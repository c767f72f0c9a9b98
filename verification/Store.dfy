/** The write-once artifact store (artifact_store.py): what `write` accepts, what `load`
    re-validates, and why a written artifact can always be loaded again. */
module Store {
  import opened Prelude
  import opened Evidence
  import opened Acceptance
  import opened Decision
  import opened RevisionLoop

  // ---------------------------------------------------------------------- the files

  /** A file holds one serialized artifact or one captured process output. */
  datatype Content = Json(artifact: Artifact) | Raw(text: string)

  datatype File = File(path: Path, content: Content)

  /** The run directory's files, in the order in which they were created. */
  type Disk = seq<File>

  /** Where `path` is on disk. */
  function Find(disk: Disk, path: Path): (r: Option<nat>)
    ensures r.Some? ==> r.value < |disk| && disk[r.value].path == path
    ensures r.None? ==> forall i :: 0 <= i < |disk| ==> disk[i].path != path
  {
    if disk == [] then None
    else if disk[|disk| - 1].path == path then Some(|disk| - 1)
    else Find(disk[..|disk| - 1], path)
  }

  /** The references an artifact holds. */
  function References(a: Artifact): seq<Reference> {
    match a
    case HandoffArtifact(h) => h.artifacts
    case ExecutionArtifact(e) => if e.response.Some? then [e.response.value] else []
    case RecordArtifact(r) => (if r.plan.Some? then [r.plan.value] else []) + r.works + r.tests + r.reviews
    case FinalArtifact(f) => f.iterations
    case _ => []
  }

  /** A directory has each path once. */
  predicate PathsUnique(disk: Disk) {
    forall i, j :: 0 <= i < j < |disk| ==> disk[i].path != disk[j].path
  }

  function Indices(disk: Disk): (r: set<nat>)
    ensures forall i: nat :: i in r <==> i < |disk|
  {
    if disk == [] then {} else Indices(disk[..|disk| - 1]) + {|disk| - 1}
  }

  // ------------------------------------------------------------------- the checks

  /** What the store knows of the run. */
  datatype Context = Context(
    team: Team, agents: set<AgentId>, stages: map<string, set<AgentId>>, brief: seq<CriterionId>, limit: nat)

  predicate ValidHandoff(h: Handoff) {
    h.source != h.target && Distinct(PathsOf(h.artifacts))
  }

  /** The validators of the artifact models. */
  predicate ValidArtifact(a: Artifact) {
    match a
    case PlanArtifact(_) => true
    case WorkArtifact(w) => ValidWorkResult(w)
    case TestArtifact(t) => ValidTestReport(t)
    case ReviewArtifact(r) => ValidReviewReport(r)
    case RecordArtifact(r) => ValidRecord(r)
    case FinalArtifact(f) => ValidFinalReport(f)
    case HandoffArtifact(h) => ValidHandoff(h)
    case ExecutionArtifact(_) => true
  }

  predicate InStage(c: Context, stage: string, agent: AgentId) {
    stage in c.stages && agent in c.agents && agent in c.stages[stage]
  }

  predicate CriteriaKnown(c: Context, r: ReviewReport) {
    && Elements(r.reviewed) <= Elements(c.brief)
    && forall i :: 0 <= i < |r.findings| ==> Elements(r.findings[i].criteria) <= Elements(c.brief)
  }

  /** `validate_artifact_context`. */
  predicate InContext(c: Context, a: Artifact) {
    match a
    case PlanArtifact(p) =>
      && 1 <= c.limit && p.producer in c.agents
      && Elements(p.owners) <= c.team.writers && Elements(p.covered) == Elements(c.brief)
    case WorkArtifact(w) => w.iteration <= c.limit && w.producer in c.agents && w.producer in c.team.writers
    case TestArtifact(t) =>
      && t.iteration <= c.limit
      && (t.producer == Controller || (t.producer in c.agents && t.producer in c.team.testers))
      && Elements(CriterionIds(t.criteria)) == Elements(c.brief) && Elements(t.manual) <= Elements(c.brief)
    case ReviewArtifact(r) =>
      r.iteration <= c.limit && r.producer in c.agents && r.producer in c.team.reviewers && CriteriaKnown(c, r)
    case RecordArtifact(r) => r.iteration <= c.limit
    case FinalArtifact(f) => FinalContext(c.brief, f)
    case HandoffArtifact(h) =>
      && h.iteration <= c.limit && InStage(c, h.stage, h.source)
      && (h.target == Controller || h.target in c.agents)
    case ExecutionArtifact(e) => e.iteration <= c.limit && InStage(c, e.stage, e.agent)
  }

  /** The iteration of an artifact made within one pass; the plan belongs to the first. */
  function IterationOf(a: Artifact): Option<nat> {
    match a
    case PlanArtifact(_) => Some(1)
    case WorkArtifact(w) => Some(w.iteration)
    case TestArtifact(t) => Some(t.iteration)
    case ReviewArtifact(r) => Some(r.iteration)
    case RecordArtifact(r) => Some(r.iteration)
    case _ => None
  }

  /** The producer of a phase artifact; handoffs and execution records have none. */
  function ProducerOf(a: Artifact): Option<AgentId> {
    match a
    case PlanArtifact(p) => Some(p.producer)
    case WorkArtifact(w) => Some(w.producer)
    case TestArtifact(t) => Some(t.producer)
    case ReviewArtifact(r) => Some(r.producer)
    case RecordArtifact(_) => Some(Controller)
    case FinalArtifact(_) => Some(Controller)
    case _ => None
  }

  /** The handoff branch of `_validate_references`, on the loaded artifacts. */
  predicate HandoffEvidence(h: Handoff, loaded: seq<Artifact>) {
    && (h.status.CompletedHandoff? ==> h.artifacts != [])
    && (forall i :: 0 <= i < |loaded| && !loaded[i].PlanArtifact? && IterationOf(loaded[i]).Some?
          ==> IterationOf(loaded[i]) == Some(h.iteration))
    && (h.status.CompletedHandoff? ==>
          exists i :: 0 <= i < |loaded| && ProducerOf(loaded[i]) == Some(h.source))
  }

  /** `_validate_file_digest`. */
  predicate FileHasDigest(sha: Content -> nat, disk: Disk, path: Path, digest: nat) {
    var i := Find(disk, path);
    i.Some? && sha(disk[i.value].content) == digest
  }

  predicate OutputsKept(sha: Content -> nat, disk: Disk, e: Execution) {
    && e.stdoutPath == OutputPath(e.iteration, e.stage, e.agent, e.attempt, false)
    && e.stderrPath == OutputPath(e.iteration, e.stage, e.agent, e.attempt, true)
    && FileHasDigest(sha, disk, e.stdoutPath, e.stdoutDigest)
    && FileHasDigest(sha, disk, e.stderrPath, e.stderrDigest)
  }

  /** The execution-record branch, on the loaded response if there is one. */
  predicate ResponseEvidence(e: Execution, loaded: seq<Artifact>) {
    forall i :: 0 <= i < |loaded| ==>
      && ProducerOf(loaded[i]) == Some(e.agent)
      && (IterationOf(loaded[i]).Some? ==> IterationOf(loaded[i]) == Some(e.iteration))
  }

  predicate AllWorks(s: seq<Artifact>) { forall i :: 0 <= i < |s| ==> s[i].WorkArtifact? }
  predicate AllTests(s: seq<Artifact>) { forall i :: 0 <= i < |s| ==> s[i].TestArtifact? }
  predicate AllReviews(s: seq<Artifact>) { forall i :: 0 <= i < |s| ==> s[i].ReviewArtifact? }
  predicate AllRecords(s: seq<Artifact>) { forall i :: 0 <= i < |s| ==> s[i].RecordArtifact? }

  function WorksIn(s: seq<Artifact>): seq<WorkResult>
    requires AllWorks(s)
  {
    seq(|s|, i requires 0 <= i < |s| => s[i].work)
  }

  function TestsIn(s: seq<Artifact>): seq<TestReport>
    requires AllTests(s)
  {
    seq(|s|, i requires 0 <= i < |s| => s[i].test)
  }

  function ReviewsIn(s: seq<Artifact>): seq<ReviewReport>
    requires AllReviews(s)
  {
    seq(|s|, i requires 0 <= i < |s| => s[i].review)
  }

  function RecordsIn(s: seq<Artifact>): seq<IterationRecord>
    requires AllRecords(s)
  {
    seq(|s|, i requires 0 <= i < |s| => s[i].record)
  }

  // ------------------------------------------------------------------ load and write

  /** `load`, on any directory: every check on the file, then on what it refers to. `pending`
      holds the files whose own references are being checked. Evidence that leads back to one
      of them would make the source recurse without end, so it loads nothing. */
  function Load(sha: Content -> nat, c: Context, disk: Disk, r: Reference, pending: set<nat>): (a: Option<Artifact>)
    ensures a.Some? ==> Find(disk, r.path).Some? && disk[Find(disk, r.path).value].content == Json(a.value)
    ensures a.Some? ==> r == RefTo(sha, a.value) && ValidArtifact(a.value) && InContext(c, a.value)
    decreases Indices(disk) - pending, 0, 0
  {
    match Find(disk, r.path)
    case None => None
    case Some(i) =>
      match disk[i].content
      case Raw(_) => None
      case Json(a) =>
        if sha(disk[i].content) == r.digest && KindOf(a) == r.kind && ValidArtifact(a) && CanonicalPath(a) == r.path
           && InContext(c, a) && i !in pending && ReferencesOk(sha, c, disk, a, Entering(disk, pending, i))
        then Some(a) else None
  }

  function Entering(disk: Disk, pending: set<nat>, i: nat): (r: set<nat>)
    requires i < |disk| && i !in pending
    ensures r == pending + {i} && Indices(disk) - r < Indices(disk) - pending
  {
    assert i in Indices(disk) - pending;
    pending + {i}
  }

  /** Loading a list of references, in order; None when one of them cannot be loaded. */
  function LoadAll(sha: Content -> nat, c: Context, disk: Disk, refs: seq<Reference>, pending: set<nat>)
    : (o: Option<seq<Artifact>>)
    ensures o.Some? ==> |o.value| == |refs|
    ensures o.Some? ==> forall k :: 0 <= k < |refs| ==> Load(sha, c, disk, refs[k], pending) == Some(o.value[k])
    ensures o.None? ==> exists k :: 0 <= k < |refs| && Load(sha, c, disk, refs[k], pending).None?
    decreases Indices(disk) - pending, 1, |refs|
  {
    if refs == [] then Some([])
    else
      var front := LoadAll(sha, c, disk, refs[..|refs| - 1], pending);
      var last := Load(sha, c, disk, refs[|refs| - 1], pending);
      if front.Some? && last.Some? then Some(front.value + [last.value]) else None
  }

  /** The iteration-record checks on what its references load. */
  predicate RecordBacked(team: Team, r: IterationRecord, works: Option<seq<Artifact>>, tests: Option<seq<Artifact>>,
                         reviews: Option<seq<Artifact>>) {
    && works.Some? && tests.Some? && reviews.Some?
    && AllWorks(works.value) && AllTests(tests.value) && AllReviews(reviews.value) && tests.value != []
    && RecordEvidence(team, r, WorksIn(works.value), TestsIn(tests.value), ReviewsIn(reviews.value))
  }

  /** The iteration-record branch of `_validate_references`. */
  predicate RecordReferencesOk(sha: Content -> nat, c: Context, disk: Disk, r: IterationRecord, pending: set<nat>)
    requires ValidRecord(r)
    decreases Indices(disk) - pending, 2, 0
  {
    && (r.plan.Some? ==> Load(sha, c, disk, r.plan.value, pending).Some?)
    && RecordBacked(c.team, r, LoadAll(sha, c, disk, r.works, pending), LoadAll(sha, c, disk, r.tests, pending),
                    LoadAll(sha, c, disk, r.reviews, pending))
  }

  /** The final-report checks on the records and what the last one's reports load. */
  predicate ReportBacked(f: FinalReport, records: seq<Artifact>, tests: Option<seq<Artifact>>,
                         reviews: Option<seq<Artifact>>) {
    && AllRecords(records) && tests.Some? && reviews.Some?
    && AllTests(tests.value) && AllReviews(reviews.value) && tests.value != []
    && FinalEvidence(f, RecordsIn(records), TestsIn(tests.value), ReviewsIn(reviews.value))
  }

  /** The final-report branch: the records, then the last record's own reports. */
  predicate FinalReferencesOk(sha: Content -> nat, c: Context, disk: Disk, f: FinalReport, pending: set<nat>)
    decreases Indices(disk) - pending, 2, 0
  {
    f.iterations == [] ||
    var records := LoadAll(sha, c, disk, f.iterations, pending);
    && records.Some? && records.value[|f.iterations| - 1].RecordArtifact?
    && var last := records.value[|f.iterations| - 1].record;
       ReportBacked(f, records.value, LoadAll(sha, c, disk, last.tests, pending),
                    LoadAll(sha, c, disk, last.reviews, pending))
  }

  /** `_validate_references`. */
  predicate ReferencesOk(sha: Content -> nat, c: Context, disk: Disk, a: Artifact, pending: set<nat>)
    requires ValidArtifact(a)
    decreases Indices(disk) - pending, 3, 0
  {
    match a
    case HandoffArtifact(h) =>
      var loaded := LoadAll(sha, c, disk, h.artifacts, pending);
      loaded.Some? && HandoffEvidence(h, loaded.value)
    case ExecutionArtifact(e) =>
      var loaded := LoadAll(sha, c, disk, References(a), pending);
      OutputsKept(sha, disk, e) && loaded.Some? && ResponseEvidence(e, loaded.value)
    case RecordArtifact(r) => RecordReferencesOk(sha, c, disk, r, pending)
    case FinalArtifact(f) => FinalReferencesOk(sha, c, disk, f, pending)
    case _ => true
  }

  function RefTo(sha: Content -> nat, a: Artifact): Reference {
    Reference(KindOf(a), CanonicalPath(a), sha(Json(a)))
  }

  /** What `write` accepts. */
  predicate Writable(sha: Content -> nat, c: Context, disk: Disk, a: Artifact)
    requires ValidArtifact(a)
  {
    InContext(c, a) && ReferencesOk(sha, c, disk, a, {}) && Find(disk, CanonicalPath(a)).None?
  }

  /** A constructed artifact that `write` accepts. */
  predicate Accepts(sha: Content -> nat, c: Context, disk: Disk, a: Artifact) {
    ValidArtifact(a) && Writable(sha, c, disk, a)
  }

  // ---------------------------------------------------------------- what a load looks at

  predicate KeepsOutputAt(disk: Disk, a: Artifact, i: nat) {
    && a.ExecutionArtifact?
    && (Find(disk, a.execution.stdoutPath) == Some(i) || Find(disk, a.execution.stderrPath) == Some(i))
  }

  /** Loading `r` looks at file `i`, directly or through what the artifact refers to. */
  predicate DependsOn(disk: Disk, r: Reference, i: nat, pending: set<nat>)
    decreases Indices(disk) - pending, 0
  {
    match Find(disk, r.path)
    case None => false
    case Some(j) =>
      j == i || (j !in pending && EvidenceDependsOn(disk, j, i, Entering(disk, pending, j)))
  }

  /** What the artifact in file `j` rests on includes file `i`. */
  predicate EvidenceDependsOn(disk: Disk, j: nat, i: nat, pending: set<nat>)
    requires j < |disk|
    decreases Indices(disk) - pending, 1
  {
    disk[j].content.Json? &&
    var a := disk[j].content.artifact;
    KeepsOutputAt(disk, a, i)
    || exists k :: 0 <= k < |References(a)| && DependsOn(disk, References(a)[k], i, pending)
  }

  predicate Avoids(disk: Disk, r: Reference, avoid: set<nat>, pending: set<nat>) {
    forall i :: i in avoid ==> !DependsOn(disk, r, i, pending)
  }

  predicate AllAvoid(disk: Disk, refs: seq<Reference>, avoid: set<nat>, pending: set<nat>) {
    forall r :: r in refs ==> Avoids(disk, r, avoid, pending)
  }

  /** `other` holds the files of `disk` in the same places; those in `avoid` may differ in content. */
  predicate Agrees(disk: Disk, other: Disk, avoid: set<nat>) {
    && PathsUnique(other) && |disk| <= |other|
    && (forall i: nat :: i < |disk| ==> other[i].path == disk[i].path && (i !in avoid ==> other[i] == disk[i]))
  }

  /** Of the files of `disk`, only those of `pending` and of `avoid` are in `other`. */
  predicate NoMorePending(disk: Disk, pending: set<nat>, avoid: set<nat>, other: set<nat>) {
    forall i :: i in other && i < |disk| ==> i in pending || i in avoid
  }

  lemma FindIs(disk: Disk, i: nat)
    requires PathsUnique(disk) && i < |disk|
    ensures Find(disk, disk[i].path) == Some(i)
  {
  }

  lemma FindKept(disk: Disk, other: Disk, avoid: set<nat>, path: Path)
    requires Agrees(disk, other, avoid) && Find(disk, path).Some?
    ensures Find(other, path) == Find(disk, path)
  {
    FindIs(other, Find(disk, path).value);
  }

  lemma {:induction false} AllLoaded(sha: Content -> nat, c: Context, disk: Disk, a: Artifact, pending: set<nat>)
    requires ValidArtifact(a) && ReferencesOk(sha, c, disk, a, pending)
    ensures forall r :: r in References(a) ==> Load(sha, c, disk, r, pending).Some?
  {
    forall r | r in References(a) ensures Load(sha, c, disk, r, pending).Some? {
      match a
      case RecordArtifact(record) =>
        assert r in record.works || r in record.tests || r in record.reviews || record.plan == Some(r);
      case _ =>
    }
  }

  lemma {:induction false} LoadAllCarries(sha: Content -> nat, c: Context, disk: Disk, other: Disk, avoid: set<nat>,
                                          refs: seq<Reference>, pending: set<nat>, elsewhere: set<nat>)
    requires Agrees(disk, other, avoid) && NoMorePending(disk, pending, avoid, elsewhere)
    requires AllAvoid(disk, refs, avoid, pending) && LoadAll(sha, c, disk, refs, pending).Some?
    ensures LoadAll(sha, c, other, refs, elsewhere) == LoadAll(sha, c, disk, refs, pending)
    decreases Indices(disk) - pending, 1, |refs|
  {
    hide Load, Agrees, NoMorePending, Avoids;
    if refs == [] {
    } else {
      var last := refs[|refs| - 1];
      assert last in refs;
      LoadAllCarries(sha, c, disk, other, avoid, refs[..|refs| - 1], pending, elsewhere);
      LoadCarries(sha, c, disk, other, avoid, last, pending, elsewhere);
    }
  }

  predicate OutputsAvoid(disk: Disk, a: Artifact, avoid: set<nat>) {
    forall i :: i in avoid ==> !KeepsOutputAt(disk, a, i)
  }

  lemma OutputsCarry(sha: Content -> nat, disk: Disk, other: Disk, avoid: set<nat>, e: Execution)
    requires Agrees(disk, other, avoid) && OutputsKept(sha, disk, e)
    requires OutputsAvoid(disk, ExecutionArtifact(e), avoid)
    ensures OutputsKept(sha, other, e)
  {
    FindKept(disk, other, avoid, e.stdoutPath);
    FindKept(disk, other, avoid, e.stderrPath);
    assert KeepsOutputAt(disk, ExecutionArtifact(e), Find(disk, e.stdoutPath).value);
    assert KeepsOutputAt(disk, ExecutionArtifact(e), Find(disk, e.stderrPath).value);
  }

  lemma {:induction false} RecordReferencesCarry(sha: Content -> nat, c: Context, disk: Disk, other: Disk,
                                                 avoid: set<nat>, r: IterationRecord, pending: set<nat>,
                                                 elsewhere: set<nat>)
    requires Agrees(disk, other, avoid) && NoMorePending(disk, pending, avoid, elsewhere) && ValidRecord(r)
    requires AllAvoid(disk, References(RecordArtifact(r)), avoid, pending)
    requires RecordReferencesOk(sha, c, disk, r, pending)
    ensures RecordReferencesOk(sha, c, other, r, elsewhere)
    decreases Indices(disk) - pending, 2, 0
  {
    hide RecordEvidence, Load, LoadAll, Agrees, NoMorePending, Avoids, ValidRecord;
    var refs := References(RecordArtifact(r));
    if r.plan.Some? {
      assert r.plan.value in refs;
      LoadCarries(sha, c, disk, other, avoid, r.plan.value, pending, elsewhere);
    }
    assert forall x :: x in r.works || x in r.tests || x in r.reviews ==> x in refs;
    LoadAllCarries(sha, c, disk, other, avoid, r.works, pending, elsewhere);
    LoadAllCarries(sha, c, disk, other, avoid, r.tests, pending, elsewhere);
    LoadAllCarries(sha, c, disk, other, avoid, r.reviews, pending, elsewhere);
  }

  /** Evidence that avoids some files has references that avoid them. */
  lemma ReferencesAvoid(disk: Disk, ref: Reference, avoid: set<nat>, pending: set<nat>)
    requires Avoids(disk, ref, avoid, pending) && Find(disk, ref.path).Some?
    requires Find(disk, ref.path).value !in pending && disk[Find(disk, ref.path).value].content.Json?
    ensures var i := Find(disk, ref.path).value; var a := disk[i].content.artifact;
            && i !in avoid && AllAvoid(disk, References(a), avoid, Entering(disk, pending, i))
            && OutputsAvoid(disk, a, avoid)
  {
    var i := Find(disk, ref.path).value;
    var a := disk[i].content.artifact;
    var inside := Entering(disk, pending, i);
    forall r, b | r in References(a) && b in avoid ensures !DependsOn(disk, r, b, inside) {
      var k :| 0 <= k < |References(a)| && References(a)[k] == r;
      assert !EvidenceDependsOn(disk, i, b, inside);
    }
    forall b | b in avoid ensures !KeepsOutputAt(disk, a, b) {
      assert !EvidenceDependsOn(disk, i, b, inside);
    }
  }

  /** A record that loads takes its own reports along, also where it is no longer pending. */
  lemma {:induction false} RecordReportsCarry(sha: Content -> nat, c: Context, disk: Disk, other: Disk,
                                              avoid: set<nat>, ref: Reference, record: IterationRecord, r: Reference,
                                              pending: set<nat>, elsewhere: set<nat>)
    requires Agrees(disk, other, avoid) && NoMorePending(disk, pending, avoid, elsewhere)
    requires Avoids(disk, ref, avoid, pending)
    requires Load(sha, c, disk, ref, pending) == Some(RecordArtifact(record))
    requires r in record.tests || r in record.reviews
    ensures Load(sha, c, other, r, elsewhere).Some?
    ensures Find(disk, r.path).Some? && Find(disk, r.path).value !in avoid
    decreases Indices(disk) - pending, 0, 1
  {
    var inside := Entering(disk, pending, Find(disk, ref.path).value);
    AllLoaded(sha, c, disk, RecordArtifact(record), inside);
    ReferencesAvoid(disk, ref, avoid, pending);
    assert r in References(RecordArtifact(record));
    LoadCarries(sha, c, disk, other, avoid, r, inside, elsewhere);
    assert forall b :: b in avoid ==> !DependsOn(disk, r, b, inside);
  }

  lemma SameArtifact(sha: Content -> nat, c: Context, disk: Disk, other: Disk, avoid: set<nat>, r: Reference,
                     pending: set<nat>, elsewhere: set<nat>)
    requires Agrees(disk, other, avoid)
    requires Load(sha, c, disk, r, pending).Some? && Load(sha, c, other, r, elsewhere).Some?
    requires Find(disk, r.path).value !in avoid
    ensures Load(sha, c, disk, r, pending) == Load(sha, c, other, r, elsewhere)
  {
    FindKept(disk, other, avoid, r.path);
  }

  /** References that load on both sides load the same, away from the files that differ. */
  lemma {:induction false} SameLoads(sha: Content -> nat, c: Context, disk: Disk, other: Disk, avoid: set<nat>,
                                     refs: seq<Reference>, pending: set<nat>, elsewhere: set<nat>)
    requires Agrees(disk, other, avoid) && LoadAll(sha, c, disk, refs, pending).Some?
    requires forall r :: r in refs ==> Load(sha, c, other, r, elsewhere).Some?
    requires forall r :: r in refs ==> Find(disk, r.path).Some? && Find(disk, r.path).value !in avoid
    ensures LoadAll(sha, c, other, refs, elsewhere) == LoadAll(sha, c, disk, refs, pending)
  {
    hide Load, Agrees, Find;
    if refs == [] {
    } else {
      var last := refs[|refs| - 1];
      assert last in refs;
      SameLoads(sha, c, disk, other, avoid, refs[..|refs| - 1], pending, elsewhere);
      SameArtifact(sha, c, disk, other, avoid, last, pending, elsewhere);
    }
  }

  lemma {:induction false} LastReportsCarry(sha: Content -> nat, c: Context, disk: Disk, other: Disk,
                                            avoid: set<nat>, ref: Reference, record: IterationRecord,
                                            reports: seq<Reference>, pending: set<nat>, elsewhere: set<nat>)
    requires Agrees(disk, other, avoid) && NoMorePending(disk, pending, avoid, elsewhere)
    requires Avoids(disk, ref, avoid, pending)
    requires Load(sha, c, disk, ref, pending) == Some(RecordArtifact(record))
    requires reports == record.tests || reports == record.reviews
    requires LoadAll(sha, c, disk, reports, pending).Some?
    ensures LoadAll(sha, c, other, reports, elsewhere) == LoadAll(sha, c, disk, reports, pending)
    decreases Indices(disk) - pending, 1, 0
  {
    hide Load, LoadAll, DependsOn, Agrees, NoMorePending, Avoids, Find;
    forall r | r in reports
      ensures Load(sha, c, other, r, elsewhere).Some?
      ensures Find(disk, r.path).Some? && Find(disk, r.path).value !in avoid
    {
      RecordReportsCarry(sha, c, disk, other, avoid, ref, record, r, pending, elsewhere);
    }
    SameLoads(sha, c, disk, other, avoid, reports, pending, elsewhere);
  }

  lemma {:induction false} FinalReferencesCarry(sha: Content -> nat, c: Context, disk: Disk, other: Disk,
                                                avoid: set<nat>, f: FinalReport, pending: set<nat>,
                                                elsewhere: set<nat>)
    requires Agrees(disk, other, avoid) && NoMorePending(disk, pending, avoid, elsewhere)
    requires AllAvoid(disk, f.iterations, avoid, pending)
    requires FinalReferencesOk(sha, c, disk, f, pending)
    ensures FinalReferencesOk(sha, c, other, f, elsewhere)
    decreases Indices(disk) - pending, 2, 0
  {
    hide FinalEvidence, Load, LoadAll, DependsOn, Agrees, NoMorePending, Avoids;
    if f.iterations != [] {
      var n := |f.iterations|;
      var record := LoadAll(sha, c, disk, f.iterations, pending).value[n - 1].record;
      assert f.iterations[n - 1] in f.iterations;
      LoadAllCarries(sha, c, disk, other, avoid, f.iterations, pending, elsewhere);
      LastReportsCarry(sha, c, disk, other, avoid, f.iterations[n - 1], record, record.tests, pending, elsewhere);
      LastReportsCarry(sha, c, disk, other, avoid, f.iterations[n - 1], record, record.reviews, pending, elsewhere);
    }
  }

  lemma {:induction false} ReferencesCarry(sha: Content -> nat, c: Context, disk: Disk, other: Disk, avoid: set<nat>,
                                           a: Artifact, pending: set<nat>, elsewhere: set<nat>)
    requires Agrees(disk, other, avoid) && NoMorePending(disk, pending, avoid, elsewhere) && ValidArtifact(a)
    requires AllAvoid(disk, References(a), avoid, pending) && OutputsAvoid(disk, a, avoid)
    requires ReferencesOk(sha, c, disk, a, pending)
    ensures ReferencesOk(sha, c, other, a, elsewhere)
    decreases Indices(disk) - pending, 3, 0
  {
    hide RecordReferencesOk, FinalReferencesOk, HandoffEvidence, ResponseEvidence, OutputsKept, Agrees, NoMorePending;
    hide ValidRecord, ValidFinalReport, ValidTestReport, ValidReviewReport, Avoids;
    match a
    case HandoffArtifact(h) => LoadAllCarries(sha, c, disk, other, avoid, h.artifacts, pending, elsewhere);
    case ExecutionArtifact(e) =>
      LoadAllCarries(sha, c, disk, other, avoid, References(a), pending, elsewhere);
      OutputsCarry(sha, disk, other, avoid, e);
    case RecordArtifact(r) => RecordReferencesCarry(sha, c, disk, other, avoid, r, pending, elsewhere);
    case FinalArtifact(f) => FinalReferencesCarry(sha, c, disk, other, avoid, f, pending, elsewhere);
    case _ =>
  }

  /** A load that looks at no file in `avoid` has the same result on every directory that
      agrees on the others, whichever other files are pending there. */
  lemma {:induction false} LoadCarries(sha: Content -> nat, c: Context, disk: Disk, other: Disk, avoid: set<nat>,
                                       r: Reference, pending: set<nat>, elsewhere: set<nat>)
    requires Agrees(disk, other, avoid) && NoMorePending(disk, pending, avoid, elsewhere)
    requires Avoids(disk, r, avoid, pending) && Load(sha, c, disk, r, pending).Some?
    ensures Load(sha, c, other, r, elsewhere) == Load(sha, c, disk, r, pending)
    decreases Indices(disk) - pending, 0, 0
  {
    var i := Find(disk, r.path).value;
    FindKept(disk, other, avoid, r.path);
    ReferencesAvoid(disk, r, avoid, pending);
    ReferencesCarry(sha, c, disk, other, avoid, disk[i].content.artifact, Entering(disk, pending, i),
                    Entering(other, elsewhere, i));
  }

  // ------------------------------------------------------------------- growing stores

  /** `longer` holds the files of `disk`, unchanged and first. */
  predicate Grows(disk: Disk, longer: Disk) {
    PathsUnique(disk) && PathsUnique(longer) && disk <= longer
  }

  /** What can be loaded stays loadable, with the same result, however the store grows. */
  lemma LoadKept(sha: Content -> nat, c: Context, disk: Disk, longer: Disk, r: Reference)
    requires Grows(disk, longer) && Load(sha, c, disk, r, {}).Some?
    ensures Load(sha, c, longer, r, {}) == Load(sha, c, disk, r, {})
  {
    LoadCarries(sha, c, disk, longer, {}, r, {}, {});
  }

  /** One call: a constructed artifact to write, or one process's captured output. */
  datatype Operation =
    | WriteArtifact(artifact: Artifact)
    | WriteOutputs(iteration: nat, stage: string, agent: AgentId, attempt: nat, stdout: string, stderr: string)

  /** The guards of `write_execution_outputs`, and both paths being free. */
  predicate OutputsWritable(c: Context, disk: Disk, iteration: nat, stage: string, agent: AgentId, attempt: nat) {
    && 1 <= iteration <= c.limit && 1 <= attempt <= 99
    && stage in c.stages && agent in c.stages[stage]
    && Find(disk, OutputPath(iteration, stage, agent, attempt, false)).None?
    && Find(disk, OutputPath(iteration, stage, agent, attempt, true)).None?
  }

  function OutputFiles(iteration: nat, stage: string, agent: AgentId, attempt: nat, stdout: string, stderr: string)
    : seq<File>
  {
    [File(OutputPath(iteration, stage, agent, attempt, false), Raw(stdout)),
     File(OutputPath(iteration, stage, agent, attempt, true), Raw(stderr))]
  }

  /** The files an operation adds; none when it is refused. */
  function Added(sha: Content -> nat, c: Context, disk: Disk, op: Operation): seq<File> {
    match op
    case WriteArtifact(a) =>
      if Accepts(sha, c, disk, a) then [File(CanonicalPath(a), Json(a))] else []
    case WriteOutputs(iteration, stage, agent, attempt, stdout, stderr) =>
      if OutputsWritable(c, disk, iteration, stage, agent, attempt)
      then OutputFiles(iteration, stage, agent, attempt, stdout, stderr) else []
  }

  predicate LoadsAt(sha: Content -> nat, c: Context, disk: Disk, i: nat)
    requires i < |disk|
  {
    disk[i].content.Json? ==>
      var a := disk[i].content.artifact; Load(sha, c, disk, RefTo(sha, a), {}) == Some(a)
  }

  /** Every artifact on disk lies at its canonical path and loads from its own reference. */
  predicate EveryArtifactLoads(sha: Content -> nat, c: Context, disk: Disk) {
    PathsUnique(disk) && forall i :: 0 <= i < |disk| ==> LoadsAt(sha, c, disk, i)
  }

  lemma StillFree(disk: Disk, file: File, path: Path)
    requires Find(disk, path).None? && file.path != path
    ensures Find(disk + [file], path).None?
  {
    assert (disk + [file])[..|disk|] == disk;
  }

  lemma AppendGrows(disk: Disk, file: File)
    requires PathsUnique(disk) && Find(disk, file.path).None?
    ensures Grows(disk, disk + [file])
  {
  }

  lemma WrittenLoads(sha: Content -> nat, c: Context, disk: Disk, a: Artifact)
    requires PathsUnique(disk) && Accepts(sha, c, disk, a)
    ensures var longer := disk + [File(CanonicalPath(a), Json(a))];
            Grows(disk, longer) && Load(sha, c, longer, RefTo(sha, a), {}) == Some(a)
  {
    hide InContext, ValidArtifact, ReferencesOk, DependsOn;
    var longer := disk + [File(CanonicalPath(a), Json(a))];
    AppendGrows(disk, File(CanonicalPath(a), Json(a)));
    FindIs(longer, |disk|);
    ReferencesCarry(sha, c, disk, longer, {}, a, {}, Entering(longer, {}, |disk|));
  }

  lemma AppendKeepsLoads(sha: Content -> nat, c: Context, disk: Disk, file: File)
    requires EveryArtifactLoads(sha, c, disk) && Grows(disk, disk + [file])
    requires file.content.Json? ==>
               Load(sha, c, disk + [file], RefTo(sha, file.content.artifact), {}) == Some(file.content.artifact)
    ensures EveryArtifactLoads(sha, c, disk + [file])
  {
    var longer := disk + [file];
    forall i | 0 <= i < |longer| ensures LoadsAt(sha, c, longer, i) {
      if i < |disk| {
        assert LoadsAt(sha, c, disk, i) && longer[i] == disk[i];
        if disk[i].content.Json? { LoadKept(sha, c, disk, longer, RefTo(sha, disk[i].content.artifact)); }
      }
    }
  }

  lemma GrowsTransitive(a: Disk, b: Disk, d: Disk)
    requires Grows(a, b) && Grows(b, d)
    ensures Grows(a, d)
  {
  }

  lemma OutputsKeepLoads(sha: Content -> nat, c: Context, disk: Disk, first: File, second: File)
    requires EveryArtifactLoads(sha, c, disk) && first.content.Raw? && second.content.Raw?
    requires Find(disk, first.path).None? && Find(disk, second.path).None? && first.path != second.path
    ensures Grows(disk, disk + [first, second]) && EveryArtifactLoads(sha, c, disk + [first, second])
  {
    var half := disk + [first];
    AppendGrows(disk, first);
    AppendKeepsLoads(sha, c, disk, first);
    StillFree(disk, first, second.path);
    AppendGrows(half, second);
    AppendKeepsLoads(sha, c, half, second);
    assert half + [second] == disk + [first, second];
  }

  /** Every operation only appends, and what it appends loads. */
  lemma StepKeepsLoads(sha: Content -> nat, c: Context, disk: Disk, op: Operation)
    requires EveryArtifactLoads(sha, c, disk)
    ensures Grows(disk, disk + Added(sha, c, disk, op))
    ensures EveryArtifactLoads(sha, c, disk + Added(sha, c, disk, op))
  {
    var added := Added(sha, c, disk, op);
    if added == [] {
      assert disk + added == disk;
    } else if op.WriteArtifact? {
      WrittenLoads(sha, c, disk, op.artifact);
      AppendKeepsLoads(sha, c, disk, added[0]);
    } else {
      OutputsKeepLoads(sha, c, disk, added[0], added[1]);
      assert added == [added[0], added[1]];
    }
  }

  /** The disk after a run of operations on an empty run directory. */
  function After(sha: Content -> nat, c: Context, ops: seq<Operation>): (disk: Disk)
    ensures EveryArtifactLoads(sha, c, disk)
  {
    if ops == [] then []
    else
      var before := After(sha, c, ops[..|ops| - 1]);
      StepKeepsLoads(sha, c, before, ops[|ops| - 1]);
      before + Added(sha, c, before, ops[|ops| - 1])
  }

  lemma AfterOne(sha: Content -> nat, c: Context, ops: seq<Operation>, op: Operation)
    ensures After(sha, c, ops + [op]) == After(sha, c, ops) + Added(sha, c, After(sha, c, ops), op)
  {
    assert (ops + [op])[..|ops|] == ops;
  }

  /** No operation removes or replaces a file. */
  lemma {:induction false} RunsOnlyGrow(sha: Content -> nat, c: Context, ops: seq<Operation>, more: seq<Operation>)
    ensures Grows(After(sha, c, ops), After(sha, c, ops + more))
  {
    if more == [] {
      assert ops + more == ops;
    } else {
      var front, op := ops + more[..|more| - 1], more[|more| - 1];
      assert ops + more == front + [op];
      RunsOnlyGrow(sha, c, ops, more[..|more| - 1]);
      AfterOne(sha, c, front, op);
      StepKeepsLoads(sha, c, After(sha, c, front), op);
      GrowsTransitive(After(sha, c, ops), After(sha, c, front), After(sha, c, ops + more));
    }
  }

  /** Every reference `write` returned loads back to an equal artifact after any later run. */
  lemma WrittenLoadsForever(sha: Content -> nat, c: Context, ops: seq<Operation>, a: Artifact, more: seq<Operation>)
    requires Accepts(sha, c, After(sha, c, ops), a)
    ensures Load(sha, c, After(sha, c, ops + [WriteArtifact(a)] + more), RefTo(sha, a), {}) == Some(a)
  {
    var now := ops + [WriteArtifact(a)];
    AfterOne(sha, c, ops, WriteArtifact(a));
    WrittenLoads(sha, c, After(sha, c, ops), a);
    RunsOnlyGrow(sha, c, now, more);
    LoadKept(sha, c, After(sha, c, now), After(sha, c, now + more), RefTo(sha, a));
  }

  /** Loading yields an artifact exactly when the reference is the one `write` returned for a
      file on disk: nothing else is ever accepted. */
  lemma LoadsOnlyTheWritten(sha: Content -> nat, c: Context, ops: seq<Operation>, r: Reference)
    ensures var disk := After(sha, c, ops);
            Load(sha, c, disk, r, {}).Some?
            <==> exists i :: 0 <= i < |disk| && disk[i].content.Json? && r == RefTo(sha, disk[i].content.artifact)
  {
    var disk := After(sha, c, ops);
    if Load(sha, c, disk, r, {}).Some? {
      var i := Find(disk, r.path).value;
      assert disk[i].content.Json? && r == RefTo(sha, disk[i].content.artifact);
    }
    forall i | 0 <= i < |disk| && disk[i].content.Json? && r == RefTo(sha, disk[i].content.artifact)
      ensures Load(sha, c, disk, r, {}).Some?
    {
      assert LoadsAt(sha, c, disk, i);
    }
  }

  // ---------------------------------------------------------------------- termination

  /** How deep loading a reference can go: its file's position, counted from one. */
  function Rank(disk: Disk, r: Reference): nat {
    match Find(disk, r.path) case None => 0 case Some(i) => i + 1
  }

  predicate FoundBelow(disk: Disk, path: Path, bound: nat) {
    Find(disk, path).Some? && Find(disk, path).value < bound
  }

  /** What artifact `a` rests on lies in the first `bound` files. */
  predicate RestsBelow(disk: Disk, a: Artifact, bound: nat) {
    && (forall r :: r in References(a) ==> FoundBelow(disk, r.path, bound))
    && (a.ExecutionArtifact? ==>
          FoundBelow(disk, a.execution.stdoutPath, bound) && FoundBelow(disk, a.execution.stderrPath, bound))
  }

  predicate OrderedAt(disk: Disk, i: nat)
    requires i < |disk|
  {
    disk[i].content.Json? ==> RestsBelow(disk, disk[i].content.artifact, i)
  }

  /** Every artifact rests only on files created before it. */
  predicate Ordered(disk: Disk) {
    PathsUnique(disk) && forall i :: 0 <= i < |disk| ==> OrderedAt(disk, i)
  }

  lemma WritableRestsOnDisk(sha: Content -> nat, c: Context, disk: Disk, a: Artifact)
    requires Accepts(sha, c, disk, a)
    ensures RestsBelow(disk, a, |disk|)
  {
    AllLoaded(sha, c, disk, a, {});
  }

  lemma AppendKeepsOrder(disk: Disk, file: File)
    requires Ordered(disk) && Find(disk, file.path).None?
    requires file.content.Json? ==> RestsBelow(disk, file.content.artifact, |disk|)
    ensures Ordered(disk + [file])
  {
    var longer := disk + [file];
    AppendGrows(disk, file);
    forall path | Find(disk, path).Some? ensures Find(longer, path) == Find(disk, path) {
      FindKept(disk, longer, {}, path);
    }
    forall i | 0 <= i < |longer| ensures OrderedAt(longer, i) {
      if i < |disk| { assert longer[i] == disk[i] && OrderedAt(disk, i); }
    }
  }

  lemma {:induction false} StoresAreOrdered(sha: Content -> nat, c: Context, ops: seq<Operation>)
    ensures Ordered(After(sha, c, ops))
  {
    if ops == [] {
    } else {
      var front, op := ops[..|ops| - 1], ops[|ops| - 1];
      var disk := After(sha, c, front);
      var added := Added(sha, c, disk, op);
      StoresAreOrdered(sha, c, front);
      if added == [] {
        assert disk + added == disk;
      } else if op.WriteArtifact? {
        WritableRestsOnDisk(sha, c, disk, op.artifact);
        AppendKeepsOrder(disk, added[0]);
      } else {
        OutputsKeepOrder(disk, added[0], added[1]);
        assert added == [added[0], added[1]];
      }
    }
  }

  lemma OutputsKeepOrder(disk: Disk, first: File, second: File)
    requires Ordered(disk) && first.content.Raw? && second.content.Raw?
    requires Find(disk, first.path).None? && Find(disk, second.path).None? && first.path != second.path
    ensures Ordered(disk + [first, second])
  {
    var half := disk + [first];
    AppendKeepsOrder(disk, first);
    StillFree(disk, first, second.path);
    AppendKeepsOrder(half, second);
    assert half + [second] == disk + [first, second];
  }

  /** In an ordered store evidence never leads back, or forward: loading a reference looks
      only at files up to its own. */
  lemma {:induction false} EvidenceIsEarlier(disk: Disk, r: Reference, i: nat, pending: set<nat>)
    requires Ordered(disk) && DependsOn(disk, r, i, pending)
    ensures i < Rank(disk, r)
    decreases Indices(disk) - pending
  {
    var j := Find(disk, r.path).value;
    if j == i {
    } else {
      var a := disk[j].content.artifact;
      assert OrderedAt(disk, j);
      if !KeepsOutputAt(disk, a, i) {
        var inside := Entering(disk, pending, j);
        var k :| 0 <= k < |References(a)| && DependsOn(disk, References(a)[k], i, inside);
        assert References(a)[k] in References(a);
        EvidenceIsEarlier(disk, References(a)[k], i, inside);
      }
    }
  }

  /** The recursion of `load` ends on every store: in any run the guard against re-entry is
      idle, because each step goes to an earlier file, so whatever later files are pending,
      every reference loads, or fails to, as it does with none. */
  lemma LoadTerminates(sha: Content -> nat, c: Context, ops: seq<Operation>, r: Reference, pending: set<nat>)
    requires forall i :: i in pending ==> i >= Rank(After(sha, c, ops), r)
    ensures Load(sha, c, After(sha, c, ops), r, pending) == Load(sha, c, After(sha, c, ops), r, {})
  {
    var disk := After(sha, c, ops);
    StoresAreOrdered(sha, c, ops);
    forall i, p | i in pending ensures !DependsOn(disk, r, i, p) {
      if DependsOn(disk, r, i, p) { EvidenceIsEarlier(disk, r, i, p); }
    }
    if Load(sha, c, disk, r, pending).Some? { LoadCarries(sha, c, disk, disk, {}, r, pending, {}); }
    if Load(sha, c, disk, r, {}).Some? { LoadCarries(sha, c, disk, disk, pending, r, {}, pending); }
  }

  // ------------------------------------------------------------------------ integrity

  function Replaced(disk: Disk, i: nat, content: Content): (other: Disk)
    requires i < |disk|
    ensures PathsUnique(disk) ==> Agrees(disk, other, {i})
  {
    disk[i := File(disk[i].path, content)]
  }

  /** An execution whose kept output has another digest is refused. */
  lemma ReplacedOutput(sha: Content -> nat, c: Context, disk: Disk, i: nat, content: Content, a: Artifact,
                       pending: set<nat>)
    requires PathsUnique(disk) && i < |disk| && sha(content) != sha(disk[i].content)
    requires ValidArtifact(a) && ReferencesOk(sha, c, disk, a, pending) && KeepsOutputAt(disk, a, i)
    ensures !ReferencesOk(sha, c, Replaced(disk, i, content), a, pending)
  {
    hide LoadAll, Find, ValidArtifact, ResponseEvidence;
    FindKept(disk, Replaced(disk, i, content), {i}, a.execution.stdoutPath);
    FindKept(disk, Replaced(disk, i, content), {i}, a.execution.stderrPath);
  }

  /** A load that looks at a file whose digest has changed fails. */
  lemma {:induction false} ReplacementBreaks(sha: Content -> nat, c: Context, disk: Disk, i: nat, content: Content,
                                             r: Reference, pending: set<nat>)
    requires PathsUnique(disk) && i < |disk| && sha(content) != sha(disk[i].content)
    requires Load(sha, c, disk, r, pending).Some? && DependsOn(disk, r, i, pending)
    ensures Load(sha, c, Replaced(disk, i, content), r, pending).None?
    decreases Indices(disk) - pending
  {
    hide InContext, ValidArtifact, RecordBacked, ReportBacked, RecordReferencesOk, FinalReferencesOk, LoadAll;
    hide OutputsKept, HandoffEvidence, ResponseEvidence;
    var other := Replaced(disk, i, content);
    var j := Find(disk, r.path).value;
    FindKept(disk, other, {i}, r.path);
    if j == i {
    } else {
      var a := disk[j].content.artifact;
      var inside := Entering(disk, pending, j);
      AllLoaded(sha, c, disk, a, inside);
      if KeepsOutputAt(disk, a, i) {
        ReplacedOutput(sha, c, disk, i, content, a, inside);
      } else {
        var k :| 0 <= k < |References(a)| && DependsOn(disk, References(a)[k], i, inside);
        assert References(a)[k] in References(a);
        ReplacementBreaks(sha, c, disk, i, content, References(a)[k], inside);
        if ReferencesOk(sha, c, other, a, inside) { AllLoaded(sha, c, other, a, inside); }
      }
    }
  }

  /** Whatever one file's content is replaced by, if only the digest changes: of the artifacts
      that loaded, exactly those still do, unchanged, whose evidence does not reach that file,
      however many references lie between. */
  lemma TamperingIsDetectedIff(sha: Content -> nat, c: Context, disk: Disk, i: nat, content: Content, r: Reference)
    requires PathsUnique(disk) && i < |disk| && sha(content) != sha(disk[i].content)
    requires Load(sha, c, disk, r, {}).Some?
    ensures var after := Load(sha, c, Replaced(disk, i, content), r, {});
            && (after.Some? <==> !DependsOn(disk, r, i, {}))
            && (after.Some? ==> after == Load(sha, c, disk, r, {}))
  {
    if DependsOn(disk, r, i, {}) {
      ReplacementBreaks(sha, c, disk, i, content, r, {});
    } else {
      LoadCarries(sha, c, disk, Replaced(disk, i, content), {i}, r, {}, {});
    }
  }

  lemma OutputsHaveDigests(sha: Content -> nat, before: Disk, iteration: nat, stage: string, agent: AgentId,
                           attempt: nat, stdout: string, stderr: string)
    requires PathsUnique(before + OutputFiles(iteration, stage, agent, attempt, stdout, stderr))
    ensures var disk := before + OutputFiles(iteration, stage, agent, attempt, stdout, stderr);
            && FileHasDigest(sha, disk, OutputPath(iteration, stage, agent, attempt, false), sha(Raw(stdout)))
            && FileHasDigest(sha, disk, OutputPath(iteration, stage, agent, attempt, true), sha(Raw(stderr)))
  {
    var disk := before + OutputFiles(iteration, stage, agent, attempt, stdout, stderr);
    FindIs(disk, |before|);
    FindIs(disk, |before| + 1);
  }

  /** The store as the controller uses it. */
  class ArtifactStore {
    const sha: Content -> nat
    const context: Context
    var disk: Disk

    ghost predicate Valid()
      reads this
    {
      EveryArtifactLoads(sha, context, disk)
    }

    /** A fresh run directory. */
    constructor (sha: Content -> nat, context: Context)
      ensures Valid() && this.sha == sha && this.context == context && disk == []
    {
      this.sha, this.context, disk := sha, context, [];
    }

    /** `write`: None where it raises, with nothing changed. */
    method Write(a: Artifact) returns (r: Option<Reference>)
      requires Valid() && ValidArtifact(a)
      modifies this`disk
      ensures Valid() && Grows(old(disk), disk)
      ensures r.Some? <==> Writable(sha, context, old(disk), a)
      ensures disk == old(disk) + Added(sha, context, old(disk), WriteArtifact(a))
      ensures r.Some? ==> r.value == RefTo(sha, a) && Load(sha, context, disk, r.value, {}) == Some(a)
    {
      StepKeepsLoads(sha, context, disk, WriteArtifact(a));
      if !InContext(context, a) { return None; }
      if !ReferencesOk(sha, context, disk, a, {}) { return None; }
      if Find(disk, CanonicalPath(a)).Some? { return None; }
      WrittenLoads(sha, context, disk, a);
      disk := disk + [File(CanonicalPath(a), Json(a))];
      return Some(RefTo(sha, a));
    }

    /** `write_execution_outputs`: both files or, where it raises, neither. */
    method WriteExecutionOutputs(iteration: nat, stage: string, agent: AgentId, attempt: nat, stdout: string,
                                 stderr: string)
      returns (written: bool)
      requires Valid()
      modifies this`disk
      ensures Valid() && Grows(old(disk), disk)
      ensures written <==> OutputsWritable(context, old(disk), iteration, stage, agent, attempt)
      ensures disk == old(disk) + if written then OutputFiles(iteration, stage, agent, attempt, stdout, stderr) else []
      ensures written ==>
                && FileHasDigest(sha, disk, OutputPath(iteration, stage, agent, attempt, false), sha(Raw(stdout)))
                && FileHasDigest(sha, disk, OutputPath(iteration, stage, agent, attempt, true), sha(Raw(stderr)))
    {
      ghost var op := WriteOutputs(iteration, stage, agent, attempt, stdout, stderr);
      ghost var before := disk;
      StepKeepsLoads(sha, context, disk, op);
      if !(1 <= iteration <= context.limit) || !(1 <= attempt <= 99) { return false; }
      if stage !in context.stages || agent !in context.stages[stage] { return false; }
      var outPath := OutputPath(iteration, stage, agent, attempt, false);
      var errPath := OutputPath(iteration, stage, agent, attempt, true);
      if Find(disk, outPath).Some? { return false; }
      disk := disk + [File(outPath, Raw(stdout))];
      assert disk[|before|].path == outPath;
      if Find(disk, errPath).Some? {
        disk := disk[..|disk| - 1];
        assert disk == before;
        return false;
      }
      disk := disk + [File(errPath, Raw(stderr))];
      assert disk == before + OutputFiles(iteration, stage, agent, attempt, stdout, stderr);
      OutputsHaveDigests(sha, before, iteration, stage, agent, attempt, stdout, stderr);
      return true;
    }
  }
}
