/** The revision loop against the artifact store: what the loop records is exactly what the
    store accepts, a whole run can be persisted from an empty store, and what a completed
    report that loads proves. */
module RunEvidence {
  import opened Prelude
  import opened Evidence
  import opened Acceptance
  import opened Decision
  import opened RevisionLoop
  import opened Store

  /** The digest of an artifact is that of its serialized form. */
  function DigestOf(sha: Content -> nat): Artifact -> nat {
    (a: Artifact) => sha(Json(a))
  }

  predicate Stored(sha: Content -> nat, c: Context, disk: Disk, a: Artifact) {
    Load(sha, c, disk, RefTo(sha, a), {}) == Some(a)
  }

  function WorkArtifacts(works: seq<WorkResult>): seq<Artifact> {
    seq(|works|, i requires 0 <= i < |works| => WorkArtifact(works[i]))
  }

  function TestArtifacts(tests: seq<TestReport>): seq<Artifact> {
    seq(|tests|, i requires 0 <= i < |tests| => TestArtifact(tests[i]))
  }

  function ReviewArtifacts(reviews: seq<ReviewReport>): seq<Artifact> {
    seq(|reviews|, i requires 0 <= i < |reviews| => ReviewArtifact(reviews[i]))
  }

  /** The reports of a pass. */
  function Reports(pass: Pass): seq<Artifact> {
    WorkArtifacts(pass.works) + TestArtifacts(pass.tests) + ReviewArtifacts(pass.reviews)
  }

  predicate AllStored(sha: Content -> nat, c: Context, disk: Disk, artifacts: seq<Artifact>) {
    forall i :: 0 <= i < |artifacts| ==> Stored(sha, c, disk, artifacts[i])
  }

  predicate PassStored(sha: Content -> nat, c: Context, disk: Disk, pass: Pass) {
    && AllStored(sha, c, disk, WorkArtifacts(pass.works))
    && AllStored(sha, c, disk, TestArtifacts(pass.tests))
    && AllStored(sha, c, disk, ReviewArtifacts(pass.reviews))
  }

  function RefsTo(sha: Content -> nat, artifacts: seq<Artifact>): seq<Reference> {
    seq(|artifacts|, i requires 0 <= i < |artifacts| => RefTo(sha, artifacts[i]))
  }

  lemma {:induction false} StoredLoad(sha: Content -> nat, c: Context, disk: Disk, artifacts: seq<Artifact>)
    requires AllStored(sha, c, disk, artifacts)
    ensures LoadAll(sha, c, disk, RefsTo(sha, artifacts), {}) == Some(artifacts)
  {
    hide Load, RefTo, ReferencesOk, RecordReferencesOk, FinalReferencesOk, InContext, ValidArtifact, KindOf,
         CanonicalPath;
    if artifacts == [] {
    } else {
      var front := artifacts[..|artifacts| - 1];
      assert RefsTo(sha, artifacts)[..|artifacts| - 1] == RefsTo(sha, front);
      assert AllStored(sha, c, disk, front) by {
        forall i | 0 <= i < |front| ensures Stored(sha, c, disk, front[i]) {
          assert Stored(sha, c, disk, artifacts[i]);
        }
      }
      StoredLoad(sha, c, disk, front);
      assert Stored(sha, c, disk, artifacts[|artifacts| - 1]);
      assert artifacts == front + [artifacts[|artifacts| - 1]];
    }
  }

  lemma PassRefs(sha: Content -> nat, pass: Pass)
    ensures WorkRefs(DigestOf(sha), pass.works) == RefsTo(sha, WorkArtifacts(pass.works))
    ensures TestRefs(DigestOf(sha), pass.tests) == RefsTo(sha, TestArtifacts(pass.tests))
    ensures ReviewRefs(DigestOf(sha), pass.reviews) == RefsTo(sha, ReviewArtifacts(pass.reviews))
  {
    hide KindOf, CanonicalPath;
  }

  lemma ReportsTyped(pass: Pass)
    ensures AllWorks(WorkArtifacts(pass.works)) && WorksIn(WorkArtifacts(pass.works)) == pass.works
    ensures AllTests(TestArtifacts(pass.tests)) && TestsIn(TestArtifacts(pass.tests)) == pass.tests
    ensures AllReviews(ReviewArtifacts(pass.reviews)) && ReviewsIn(ReviewArtifacts(pass.reviews)) == pass.reviews
  {
  }

  // --------------------------------------------------------------- writing one record

  lemma LoadedReportsBack(team: Team, r: IterationRecord, pass: Pass)
    requires pass.tests != []
    ensures RecordBacked(team, r, Some(WorkArtifacts(pass.works)), Some(TestArtifacts(pass.tests)),
                         Some(ReviewArtifacts(pass.reviews)))
            <==> RecordEvidence(team, r, pass.works, pass.tests, pass.reviews)
  {
    hide RecordEvidence;
    ReportsTyped(pass);
  }

  lemma RecordAcceptsIff(sha: Content -> nat, c: Context, disk: Disk, r: IterationRecord, works: Option<seq<Artifact>>,
                         tests: Option<seq<Artifact>>, reviews: Option<seq<Artifact>>)
    requires ValidRecord(r) && r.plan.None? && r.iteration <= c.limit && Find(disk, RecordPath(r.iteration)).None?
    requires LoadAll(sha, c, disk, r.works, {}) == works && LoadAll(sha, c, disk, r.tests, {}) == tests
    requires LoadAll(sha, c, disk, r.reviews, {}) == reviews
    ensures Accepts(sha, c, disk, RecordArtifact(r)) <==> RecordBacked(c.team, r, works, tests, reviews)
  {
    hide LoadAll, Load, RecordBacked, ValidRecord, Find;
    assert ReferencesOk(sha, c, disk, RecordArtifact(r), {}) <==> RecordReferencesOk(sha, c, disk, r, {});
    assert RecordReferencesOk(sha, c, disk, r, {}) <==> RecordBacked(c.team, r, works, tests, reviews);
  }

  /** Writing a record whose reports are stored comes down to the checks on its evidence. */
  lemma WritableIsEvidence(sha: Content -> nat, c: Context, disk: Disk, pass: Pass, r: IterationRecord)
    requires PassStored(sha, c, disk, pass) && ValidRecord(r) && r.plan.None? && pass.tests != []
    requires r.works == WorkRefs(DigestOf(sha), pass.works) && r.tests == TestRefs(DigestOf(sha), pass.tests)
    requires r.reviews == ReviewRefs(DigestOf(sha), pass.reviews)
    requires r.iteration <= c.limit && Find(disk, RecordPath(r.iteration)).None?
    ensures Accepts(sha, c, disk, RecordArtifact(r))
            <==> RecordEvidence(c.team, r, pass.works, pass.tests, pass.reviews)
  {
    hide RecordEvidence, RecordBacked, AllStored, WorkRefs, TestRefs, ReviewRefs, ValidRecord, Accepts, LoadAll;
    hide WorkArtifacts, TestArtifacts, ReviewArtifacts, RefsTo, Find;
    PassRefs(sha, pass);
    StoredLoad(sha, c, disk, WorkArtifacts(pass.works));
    StoredLoad(sha, c, disk, TestArtifacts(pass.tests));
    StoredLoad(sha, c, disk, ReviewArtifacts(pass.reviews));
    RecordAcceptsIff(sha, c, disk, r, Some(WorkArtifacts(pass.works)), Some(TestArtifacts(pass.tests)),
                     Some(ReviewArtifacts(pass.reviews)));
    LoadedReportsBack(c.team, r, pass);
  }

  lemma AcceptedIsValid(sha: Content -> nat, c: Context, disk: Disk, r: IterationRecord)
    ensures Accepts(sha, c, disk, RecordArtifact(r)) ==> ValidRecord(r)
  {
    hide ValidRecord, Writable;
  }

  lemma FittingIsRecordableIff(team: Team, pass: Pass)
    requires EvidenceFits(team, pass)
    ensures pass.tests != []
    ensures Recordable(pass) <==> pass.input != pass.output && FindingsDistinct(pass.reviews)
  {
    hide FindingsDistinct, ProducersCover, ValidTestReport, ValidReviewReport, ManualReviewed, TestsAgree;
  }

  /** Once a pass's reports are stored, its record can be written exactly when the pass is
      recordable: the store refuses nothing else, and the loop refuses nothing more. */
  lemma RecordWritableIff(sha: Content -> nat, c: Context, disk: Disk, pass: Pass, carried: Carried)
    requires PassStored(sha, c, disk, pass)
    requires ValidTeam(c.team) && EvidenceFits(c.team, pass) && Distinct(carried.blockingIds)
    requires pass.iteration <= c.limit && Find(disk, RecordPath(pass.iteration)).None?
    ensures var r := RecordOf(DigestOf(sha), c.team, pass, c.limit, carried);
            Accepts(sha, c, disk, RecordArtifact(r)) <==> Recordable(pass)
  {
    hide EvidenceFits, ValidTeam, RecordEvidence, Recordable, ValidRecord, Accepts, PassStored, WorkRefs, TestRefs;
    hide ReviewRefs, FindingsDistinct, FinalDecision, BlockingIds, BlockingReasons, ResolvedIds, Find;
    var r := RecordOf(DigestOf(sha), c.team, pass, c.limit, carried);
    FittingIsRecordableIff(c.team, pass);
    DecisionAgreementIff(DigestOf(sha), c.team, pass, c.limit, carried);
    if ValidRecord(r) {
      WritableIsEvidence(sha, c, disk, pass, r);
    } else {
      AcceptedIsValid(sha, c, disk, r);
    }
  }

  // --------------------------------------------------------- writing the final report

  function RecordArtifacts(history: seq<Entry>): seq<Artifact> {
    seq(|history|, i requires 0 <= i < |history| => RecordArtifact(history[i].record))
  }

  /** Every record of the run can be loaded, and so can the last pass's reports. */
  predicate HistoryStored(sha: Content -> nat, c: Context, disk: Disk, history: seq<Entry>) {
    && AllStored(sha, c, disk, RecordArtifacts(history))
    && (history != [] ==> PassStored(sha, c, disk, history[|history| - 1].pass))
  }

  lemma HistoryRefs(sha: Content -> nat, history: seq<Entry>)
    ensures RecordRefs(DigestOf(sha), history) == RefsTo(sha, RecordArtifacts(history))
    ensures AllRecords(RecordArtifacts(history)) && RecordsIn(RecordArtifacts(history)) == Records(history)
  {
    hide KindOf, CanonicalPath;
  }

  lemma LastRecordRefs(sha: Content -> nat, a: Approved, start: Commit, history: seq<Entry>)
    requires SoundHistory(DigestOf(sha), a, start, history) && history != []
    ensures var last := history[|history| - 1];
            && last.pass.tests != []
            && last.record.tests == RefsTo(sha, TestArtifacts(last.pass.tests))
            && last.record.reviews == RefsTo(sha, ReviewArtifacts(last.pass.reviews))
  {
    var last := history[|history| - 1];
    PassRefs(sha, last.pass);
    assert HoldsAt(start, history, SoundEntries(DigestOf(sha), a), |history| - 1);
  }

  lemma LoadedHistoryBacks(f: FinalReport, history: seq<Entry>, pass: Pass)
    requires pass.tests != [] && FinalEvidence(f, Records(history), pass.tests, pass.reviews)
    ensures ReportBacked(f, RecordArtifacts(history), Some(TestArtifacts(pass.tests)),
                         Some(ReviewArtifacts(pass.reviews)))
  {
    hide FinalEvidence;
    ReportsTyped(pass);
    assert AllRecords(RecordArtifacts(history)) && RecordsIn(RecordArtifacts(history)) == Records(history);
  }

  lemma FinalAccepts(sha: Content -> nat, c: Context, disk: Disk, f: FinalReport, records: seq<Artifact>,
                     last: IterationRecord, tests: Option<seq<Artifact>>, reviews: Option<seq<Artifact>>)
    requires ValidFinalReport(f) && FinalContext(c.brief, f) && Find(disk, FinalReportPath).None?
    requires LoadAll(sha, c, disk, f.iterations, {}) == Some(records)
    requires |records| == |f.iterations| > 0 && records[|records| - 1] == RecordArtifact(last)
    requires LoadAll(sha, c, disk, last.tests, {}) == tests && LoadAll(sha, c, disk, last.reviews, {}) == reviews
    requires ReportBacked(f, records, tests, reviews)
    ensures Accepts(sha, c, disk, FinalArtifact(f))
  {
    hide LoadAll, Load, ReportBacked, ValidFinalReport, FinalContext, Find;
    assert ReferencesOk(sha, c, disk, FinalArtifact(f), {}) <==> FinalReferencesOk(sha, c, disk, f, {});
  }

  lemma FirstFinalAccepts(sha: Content -> nat, c: Context, disk: Disk, f: FinalReport)
    requires ValidFinalReport(f) && FinalContext(c.brief, f) && Find(disk, FinalReportPath).None?
    requires f.iterations == []
    ensures Accepts(sha, c, disk, FinalArtifact(f))
  {
    hide LoadAll, Load, ReportBacked, ValidFinalReport, FinalContext, Find;
    assert ReferencesOk(sha, c, disk, FinalArtifact(f), {}) <==> FinalReferencesOk(sha, c, disk, f, {});
  }

  /** A report that stands is one the store accepts, once the run's evidence is stored. */
  lemma StandingReportAccepted(sha: Content -> nat, c: Context, disk: Disk, a: Approved, start: Commit,
                               history: seq<Entry>, f: FinalReport)
    requires HistoryStored(sha, c, disk, history) && Find(disk, FinalReportPath).None? && c.brief == a.brief
    requires SoundHistory(DigestOf(sha), a, start, history)
    requires forall i :: 0 <= i < |history| ==> history[i].pass.tests != []
    requires ReportStands(DigestOf(sha), a, history, f)
    ensures Accepts(sha, c, disk, FinalArtifact(f))
  {
    hide AllStored, TestArtifacts, ReviewArtifacts, ReportBacked, Accepts, LoadAll;
    hide SoundHistory, ValidFinalReport, FinalContext, FinalEvidence, Find;
    HistoryRefs(sha, history);
    if history == [] {
      FirstFinalAccepts(sha, c, disk, f);
    } else {
      var last := history[|history| - 1];
      StoredLoad(sha, c, disk, RecordArtifacts(history));
      StoredLoad(sha, c, disk, TestArtifacts(last.pass.tests));
      StoredLoad(sha, c, disk, ReviewArtifacts(last.pass.reviews));
      LastRecordRefs(sha, a, start, history);
      LoadedHistoryBacks(f, history, last.pass);
      FinalAccepts(sha, c, disk, f, RecordArtifacts(history), last.record, Some(TestArtifacts(last.pass.tests)),
                   Some(ReviewArtifacts(last.pass.reviews)));
    }
  }

  // ------------------------------------------------------------------- whole runs

  /** Agents and the runner write everything but records and final reports. */
  predicate ByAgents(ops: seq<Operation>) {
    forall m :: 0 <= m < |ops| && ops[m].WriteArtifact? ==>
      !ops[m].artifact.RecordArtifact? && !ops[m].artifact.FinalArtifact?
  }

  /** One of `ops`, starting from the store after `before`, wrote `x`. */
  ghost predicate Wrote(sha: Content -> nat, c: Context, before: seq<Operation>, ops: seq<Operation>, x: Artifact) {
    exists m :: 0 <= m < |ops| && ops[m] == WriteArtifact(x) && Accepts(sha, c, After(sha, c, before + ops[..m]), x)
  }

  /** The operations up to the record of pass `k`: during each pass whatever the agents do,
      then the pass's record. */
  function Persisted(history: seq<Entry>, during: seq<seq<Operation>>, k: nat): seq<Operation>
    requires k <= |history| && k <= |during|
  {
    if k == 0 then []
    else Persisted(history, during, k - 1) + during[k - 1] + [WriteArtifact(RecordArtifact(history[k - 1].record))]
  }

  /** What the runner does to the store: in each pass the agents' operations, among them the
      writing of every report of the pass. */
  ghost predicate RunnerWrites(sha: Content -> nat, c: Context, history: seq<Entry>, during: seq<seq<Operation>>) {
    && |during| == |history| + 1
    && (forall k :: 0 <= k < |during| ==> ByAgents(during[k]))
    && forall k: nat, x :: k < |history| && x in Reports(history[k].pass) ==>
         Wrote(sha, c, Persisted(history, during, k), during[k], x)
  }

  predicate NeverWrites(ops: seq<Operation>, path: Path) {
    forall m :: 0 <= m < |ops| && ops[m].WriteArtifact? ==> CanonicalPath(ops[m].artifact) != path
  }

  lemma {:induction false} UnwrittenIsFree(sha: Content -> nat, c: Context, ops: seq<Operation>, path: Path)
    requires NeverWrites(ops, path) && !path.OutputPath?
    ensures Find(After(sha, c, ops), path).None?
  {
    hide Accepts, OutputsWritable, EveryArtifactLoads, Find;
    if ops == [] {
    } else {
      var front, op := ops[..|ops| - 1], ops[|ops| - 1];
      UnwrittenIsFree(sha, c, front, path);
      StillUnwritten(After(sha, c, front), Added(sha, c, After(sha, c, front), op), path);
    }
  }

  lemma StillUnwritten(disk: Disk, added: seq<File>, path: Path)
    requires Find(disk, path).None? && forall i :: 0 <= i < |added| ==> added[i].path != path
    ensures Find(disk + added, path).None?
  {
  }

  lemma StoredStays(sha: Content -> nat, c: Context, ops: seq<Operation>, more: seq<Operation>, x: Artifact)
    requires Stored(sha, c, After(sha, c, ops), x)
    ensures Stored(sha, c, After(sha, c, ops + more), x)
  {
    RunsOnlyGrow(sha, c, ops, more);
    LoadKept(sha, c, After(sha, c, ops), After(sha, c, ops + more), RefTo(sha, x));
  }

  lemma AllStoredStay(sha: Content -> nat, c: Context, ops: seq<Operation>, more: seq<Operation>, xs: seq<Artifact>)
    requires AllStored(sha, c, After(sha, c, ops), xs)
    ensures AllStored(sha, c, After(sha, c, ops + more), xs)
  {
    forall i | 0 <= i < |xs| ensures Stored(sha, c, After(sha, c, ops + more), xs[i]) {
      StoredStays(sha, c, ops, more, xs[i]);
    }
  }

  lemma WroteIsStored(sha: Content -> nat, c: Context, before: seq<Operation>, ops: seq<Operation>, x: Artifact)
    requires Wrote(sha, c, before, ops, x)
    ensures Stored(sha, c, After(sha, c, before + ops), x)
  {
    hide Accepts, After, Load, RefTo;
    var m :| 0 <= m < |ops| && ops[m] == WriteArtifact(x) && Accepts(sha, c, After(sha, c, before + ops[..m]), x);
    WrittenLoadsForever(sha, c, before + ops[..m], x, ops[m + 1..]);
    assert before + ops[..m] + [WriteArtifact(x)] + ops[m + 1..] == before + ops;
  }

  lemma ReportsStored(sha: Content -> nat, c: Context, before: seq<Operation>, ops: seq<Operation>, pass: Pass)
    requires forall x :: x in Reports(pass) ==> Wrote(sha, c, before, ops, x)
    ensures PassStored(sha, c, After(sha, c, before + ops), pass)
  {
    hide Wrote, Stored, WorkArtifacts, TestArtifacts, ReviewArtifacts;
    forall x | x in Reports(pass) ensures Stored(sha, c, After(sha, c, before + ops), x) {
      WroteIsStored(sha, c, before, ops, x);
    }
    var w, t, r := WorkArtifacts(pass.works), TestArtifacts(pass.tests), ReviewArtifacts(pass.reviews);
    assert forall i :: 0 <= i < |w| ==> w[i] in Reports(pass);
    assert forall i :: 0 <= i < |t| ==> t[i] in Reports(pass);
    assert forall i :: 0 <= i < |r| ==> r[i] in Reports(pass);
  }

  /** What the theorem below needs of one entry. */
  lemma EntryFits(sha: Content -> nat, a: Approved, start: Commit, history: seq<Entry>, k: nat)
    requires ValidApproved(a) && SoundHistory(DigestOf(sha), a, start, history) && k < |history|
    ensures var e, carried := history[k], CarriedAt(history, k);
            && e.record == RecordOf(DigestOf(sha), a.team, e.pass, a.limit, carried)
            && e.record.iteration == e.pass.iteration == k + 1 <= a.limit
            && EvidenceFits(a.team, e.pass) && Recordable(e.pass) && Distinct(carried.blockingIds) && ValidTeam(a.team)
  {
    hide EvidenceFits, Recordable;
    CarriedDistinct(DigestOf(sha), a, start, history, k);
    PassesWithinLimit(DigestOf(sha), a, start, history);
    assert HoldsAt(start, history, SoundEntries(DigestOf(sha), a), k);
  }

  /** The first `k` records have the numbers 1..k, and nothing else writes records. */
  lemma {:induction false} PersistedNeverWrites(sha: Content -> nat, a: Approved, start: Commit, history: seq<Entry>,
                                                during: seq<seq<Operation>>, k: nat, n: nat)
    requires ValidApproved(a) && SoundHistory(DigestOf(sha), a, start, history) && k <= |history| < |during|
    requires forall j :: 0 <= j < |during| ==> ByAgents(during[j])
    ensures n > k ==> NeverWrites(Persisted(history, during, k), RecordPath(n))
    ensures NeverWrites(Persisted(history, during, k), FinalReportPath)
  {
    hide SoundHistory, ValidApproved;
    if k == 0 {
    } else {
      PersistedNeverWrites(sha, a, start, history, during, k - 1, n);
      EntryNumbers(DigestOf(sha), a, start, history, k - 1);
      assert ByAgents(during[k - 1]);
    }
  }

  ghost predicate Matches(c: Context, a: Approved) {
    c.team == a.team && c.brief == a.brief && c.limit == a.limit && ValidApproved(a)
  }

  lemma PassIsStored(sha: Content -> nat, c: Context, history: seq<Entry>, during: seq<seq<Operation>>, k: nat)
    requires RunnerWrites(sha, c, history, during) && k < |history|
    ensures PassStored(sha, c, After(sha, c, Persisted(history, during, k) + during[k]), history[k].pass)
  {
    hide Wrote, PassStored, After, Reports, Persisted;
    ReportsStored(sha, c, Persisted(history, during, k), during[k], history[k].pass);
  }

  lemma RecordPathFree(sha: Content -> nat, c: Context, a: Approved, start: Commit, history: seq<Entry>,
                       during: seq<seq<Operation>>, k: nat)
    requires ValidApproved(a) && SoundHistory(DigestOf(sha), a, start, history) && k < |history| < |during|
    requires forall j :: 0 <= j < |during| ==> ByAgents(during[j])
    ensures Find(After(sha, c, Persisted(history, during, k) + during[k]), RecordPath(k + 1)).None?
  {
    hide SoundHistory, ValidApproved, After, Persisted;
    PersistedNeverWrites(sha, a, start, history, during, k, k + 1);
    assert ByAgents(during[k]);
    UnwrittenIsFree(sha, c, Persisted(history, during, k) + during[k], RecordPath(k + 1));
  }

  /** Writing the record of pass `k + 1` succeeds. */
  lemma RecordIsWritten(sha: Content -> nat, c: Context, a: Approved, start: Commit, history: seq<Entry>,
                        during: seq<seq<Operation>>, k: nat)
    requires Matches(c, a) && SoundHistory(DigestOf(sha), a, start, history) && k < |history|
    requires RunnerWrites(sha, c, history, during)
    ensures var now := After(sha, c, Persisted(history, during, k) + during[k]);
            PassStored(sha, c, now, history[k].pass) && Accepts(sha, c, now, RecordArtifact(history[k].record))
  {
    hide SoundHistory, PassStored, Accepts, RecordOf, EvidenceFits, Recordable, Wrote, Reports, CarriedAt,
         ValidApproved;
    hide After, Persisted, Find, ByAgents, ValidTeam;
    PassIsStored(sha, c, history, during, k);
    EntryFits(sha, a, start, history, k);
    RecordPathFree(sha, c, a, start, history, during, k);
    RecordWritableIff(sha, c, After(sha, c, Persisted(history, during, k) + during[k]), history[k].pass,
                      CarriedAt(history, k));
  }

  /** Writing one more record keeps the earlier ones and its pass's reports loadable. */
  lemma RecordAdds(sha: Content -> nat, c: Context, before: seq<Operation>, during: seq<Operation>, pass: Pass,
                   earlier: seq<Artifact>, record: Artifact)
    requires AllStored(sha, c, After(sha, c, before), earlier)
    requires PassStored(sha, c, After(sha, c, before + during), pass)
    requires Accepts(sha, c, After(sha, c, before + during), record)
    ensures var disk := After(sha, c, before + during + [WriteArtifact(record)]);
            AllStored(sha, c, disk, earlier + [record]) && PassStored(sha, c, disk, pass)
  {
    hide Accepts, After, Load, WorkArtifacts, TestArtifacts, ReviewArtifacts;
    var now, write := before + during, [WriteArtifact(record)];
    assert before + (during + write) == now + write;
    AllStoredStay(sha, c, before, during + write, earlier);
    WrittenLoadsForever(sha, c, now, record, []);
    assert now + write + [] == now + write;
    AllStoredStay(sha, c, now, write, WorkArtifacts(pass.works));
    AllStoredStay(sha, c, now, write, TestArtifacts(pass.tests));
    AllStoredStay(sha, c, now, write, ReviewArtifacts(pass.reviews));
  }

  /** From an empty store, every record of the run is written in its turn, and all of them and
      the last pass's reports can then be loaded. */
  lemma {:induction false} RunIsStored(sha: Content -> nat, c: Context, a: Approved, start: Commit,
                                       history: seq<Entry>, during: seq<seq<Operation>>, k: nat)
    requires Matches(c, a) && SoundHistory(DigestOf(sha), a, start, history) && k <= |history|
    requires RunnerWrites(sha, c, history, during)
    ensures HistoryStored(sha, c, After(sha, c, Persisted(history, during, k)), history[..k])
  {
    hide SoundHistory, Matches, Accepts, Stored, PassStored, After, Wrote, Reports;
    if k == 0 {
    } else {
      var before, e := Persisted(history, during, k - 1), history[k - 1];
      RunIsStored(sha, c, a, start, history, during, k - 1);
      RecordIsWritten(sha, c, a, start, history, during, k - 1);
      RecordAdds(sha, c, before, during[k - 1], e.pass, RecordArtifacts(history[..k - 1]), RecordArtifact(e.record));
      assert RecordArtifacts(history[..k]) == RecordArtifacts(history[..k - 1]) + [RecordArtifact(e.record)];
    }
  }

  /** All operations of a run: its passes and records, what agents still did after the last
      record, and the final report. */
  function WholeRun(history: seq<Entry>, during: seq<seq<Operation>>, report: FinalReport): seq<Operation>
    requires |during| == |history| + 1
  {
    Persisted(history, during, |history|) + during[|history|] + [WriteArtifact(FinalArtifact(report))]
  }

  /** Persistence of a whole run: however the agents' operations are interleaved, a run that
      the loop produces leaves, in a store that started empty, every record, the last pass's
      reports and the final report of its end, all of them loadable. */
  lemma WholeRunPersists(sha: Content -> nat, c: Context, a: Approved, start: Commit, history: seq<Entry>,
                         end: RunEnd, during: seq<seq<Operation>>)
    requires Matches(c, a) && SoundRun(DigestOf(sha), a, start, history, end)
    requires RunnerWrites(sha, c, history, during)
    ensures var disk := After(sha, c, WholeRun(history, during, end.report));
            HistoryStored(sha, c, disk, history) && Stored(sha, c, disk, FinalArtifact(end.report))
  {
    hide SoundHistory, ReportStands, Accepts, Stored, PassStored, After, Wrote, Reports, ValidApproved, CompletedReport;
    hide RecordArtifacts;
    var n := |history|;
    var before, report := Persisted(history, during, n), FinalArtifact(end.report);
    RunIsStored(sha, c, a, start, history, during, n);
    assert history[..n] == history;
    HistoryStays(sha, c, before, during[n], history);
    PersistedNeverWrites(sha, a, start, history, during, n, n + 1);
    assert NeverWrites(before + during[n], FinalReportPath) by { assert ByAgents(during[n]); }
    UnwrittenIsFree(sha, c, before + during[n], FinalReportPath);
    StandingReportAccepted(sha, c, After(sha, c, before + during[n]), a, start, history, end.report);
    HistoryStays(sha, c, before + during[n], [WriteArtifact(report)], history);
    FinalIsStored(sha, c, before + during[n], report);
  }

  lemma FinalIsStored(sha: Content -> nat, c: Context, ops: seq<Operation>, report: Artifact)
    requires Accepts(sha, c, After(sha, c, ops), report)
    ensures Stored(sha, c, After(sha, c, ops + [WriteArtifact(report)]), report)
  {
    hide Accepts, After;
    WrittenLoadsForever(sha, c, ops, report, []);
    assert ops + [WriteArtifact(report)] + [] == ops + [WriteArtifact(report)];
  }

  lemma HistoryStays(sha: Content -> nat, c: Context, ops: seq<Operation>, more: seq<Operation>, history: seq<Entry>)
    requires HistoryStored(sha, c, After(sha, c, ops), history)
    ensures HistoryStored(sha, c, After(sha, c, ops + more), history)
  {
    hide AllStored, After, WorkArtifacts, TestArtifacts, ReviewArtifacts, RecordArtifacts;
    AllStoredStay(sha, c, ops, more, RecordArtifacts(history));
    if history != [] {
      var pass := history[|history| - 1].pass;
      AllStoredStay(sha, c, ops, more, WorkArtifacts(pass.works));
      AllStoredStay(sha, c, ops, more, TestArtifacts(pass.tests));
      AllStoredStay(sha, c, ops, more, ReviewArtifacts(pass.reviews));
    }
  }

  // ------------------------------------------------------ what a loaded report proves

  /** What loads while other files are pending also loads by itself. */
  lemma LoadsAlone(sha: Content -> nat, c: Context, disk: Disk, r: Reference, pending: set<nat>)
    requires PathsUnique(disk) && Load(sha, c, disk, r, pending).Some?
    ensures Load(sha, c, disk, r, {}) == Load(sha, c, disk, r, pending)
  {
    hide Load;
    LoadCarries(sha, c, disk, disk, {}, r, pending, {});
  }

  predicate TestsAt(sha: Content -> nat, c: Context, disk: Disk, refs: seq<Reference>, tests: seq<TestReport>) {
    && |tests| == |refs|
    && forall i :: 0 <= i < |tests| ==> Load(sha, c, disk, refs[i], {}) == Some(TestArtifact(tests[i]))
  }

  predicate ReviewsAt(sha: Content -> nat, c: Context, disk: Disk, refs: seq<Reference>, reviews: seq<ReviewReport>) {
    |reviews| == |refs|
    && forall i :: 0 <= i < |reviews| ==> Load(sha, c, disk, refs[i], {}) == Some(ReviewArtifact(reviews[i]))
  }

  lemma LoadedTests(sha: Content -> nat, c: Context, disk: Disk, refs: seq<Reference>, pending: set<nat>)
    requires PathsUnique(disk) && LoadAll(sha, c, disk, refs, pending).Some?
    requires AllTests(LoadAll(sha, c, disk, refs, pending).value)
    ensures TestsAt(sha, c, disk, refs, TestsIn(LoadAll(sha, c, disk, refs, pending).value))
  {
    hide Load;
    forall i | 0 <= i < |refs| ensures Load(sha, c, disk, refs[i], {}) == Load(sha, c, disk, refs[i], pending) {
      LoadsAlone(sha, c, disk, refs[i], pending);
    }
  }

  lemma LoadedReviews(sha: Content -> nat, c: Context, disk: Disk, refs: seq<Reference>, pending: set<nat>)
    requires PathsUnique(disk) && LoadAll(sha, c, disk, refs, pending).Some?
    requires AllReviews(LoadAll(sha, c, disk, refs, pending).value)
    ensures ReviewsAt(sha, c, disk, refs, ReviewsIn(LoadAll(sha, c, disk, refs, pending).value))
  {
    hide Load;
    forall i | 0 <= i < |refs| ensures Load(sha, c, disk, refs[i], {}) == Load(sha, c, disk, refs[i], pending) {
      LoadsAlone(sha, c, disk, refs[i], pending);
    }
  }

  lemma BackedPending(sha: Content -> nat, c: Context, disk: Disk, record: IterationRecord, pending: set<nat>)
    returns (works: seq<WorkResult>, tests: seq<TestReport>, reviews: seq<ReviewReport>)
    requires PathsUnique(disk) && ValidRecord(record) && RecordReferencesOk(sha, c, disk, record, pending)
    ensures TestsAt(sha, c, disk, record.tests, tests) && ReviewsAt(sha, c, disk, record.reviews, reviews)
    ensures tests != [] && RecordEvidence(c.team, record, works, tests, reviews)
  {
    hide Load, RecordEvidence, ValidRecord, TestsAt, ReviewsAt;
    works := WorksIn(LoadAll(sha, c, disk, record.works, pending).value);
    tests := TestsIn(LoadAll(sha, c, disk, record.tests, pending).value);
    reviews := ReviewsIn(LoadAll(sha, c, disk, record.reviews, pending).value);
    LoadedTests(sha, c, disk, record.tests, pending);
    LoadedReviews(sha, c, disk, record.reviews, pending);
  }

  /** A record that loads, from any directory, has its reports there, and they back its decision. */
  lemma LoadedRecordIsBacked(sha: Content -> nat, c: Context, disk: Disk, r: Reference, record: IterationRecord)
    returns (works: seq<WorkResult>, tests: seq<TestReport>, reviews: seq<ReviewReport>)
    requires PathsUnique(disk) && Load(sha, c, disk, r, {}) == Some(RecordArtifact(record))
    ensures ValidRecord(record)
    ensures TestsAt(sha, c, disk, record.tests, tests) && ReviewsAt(sha, c, disk, record.reviews, reviews)
    ensures tests != [] && RecordEvidence(c.team, record, works, tests, reviews)
  {
    hide RecordEvidence, ValidRecord, TestsAt, ReviewsAt, RecordBacked, LoadAll;
    var inside := Entering(disk, {}, Find(disk, r.path).value);
    assert ReferencesOk(sha, c, disk, RecordArtifact(record), inside);
    works, tests, reviews := BackedPending(sha, c, disk, record, inside);
  }

  lemma AcceptedMeansPassed(team: Team, record: IterationRecord, works: seq<WorkResult>, tests: seq<TestReport>,
                            reviews: seq<ReviewReport>)
    requires tests != [] && ValidTestReport(tests[0]) && record.decision.AcceptIteration?
    requires RecordEvidence(team, record, works, tests, reviews)
    ensures CommandsPass(tests[0].commands) && AllAccept(reviews)
    ensures ReviewedCriteria(reviews) == Elements(tests[0].manual)
  {
    hide PlanAgrees, ProducersCover, AllOfIteration, CommitChain, TestedAndReviewed, TestsAgree, FindingsDistinct;
  }

  /** The last record of a report whose references are checked, with what the report owes it. */
  lemma LastRecordMatches(sha: Content -> nat, c: Context, disk: Disk, f: FinalReport, pending: set<nat>)
    returns (ref: Reference, record: IterationRecord)
    requires PathsUnique(disk) && f.iterations != [] && f.status.CompletedRun?
    requires FinalReferencesOk(sha, c, disk, f, pending)
    ensures Load(sha, c, disk, ref, {}) == Some(RecordArtifact(record))
    ensures record.decision.AcceptIteration? && f.finalCommit == Some(record.outputCommit)
    ensures LoadAll(sha, c, disk, record.tests, pending).Some?
    ensures var loaded := LoadAll(sha, c, disk, record.tests, pending).value;
            loaded != [] && loaded[0].TestArtifact? && f.acceptance == SettledResults(loaded[0].test)
  {
    hide Load, Resolvable, Contiguous;
    ref := f.iterations[|f.iterations| - 1];
    var records := LoadAll(sha, c, disk, f.iterations, pending).value;
    record := records[|f.iterations| - 1].record;
    assert RecordsIn(records)[|records| - 1] == record;
    LoadsAlone(sha, c, disk, ref, pending);
  }

  lemma FirstReportIs(sha: Content -> nat, c: Context, disk: Disk, refs: seq<Reference>, tests: seq<TestReport>,
                      pending: set<nat>)
    requires PathsUnique(disk) && TestsAt(sha, c, disk, refs, tests) && tests != []
    requires LoadAll(sha, c, disk, refs, pending).Some?
    ensures LoadAll(sha, c, disk, refs, pending).value[0] == TestArtifact(tests[0]) && ValidTestReport(tests[0])
  {
    hide Load, ValidTestReport;
    LoadsAlone(sha, c, disk, refs[0], pending);
  }

  /** Acceptance soundness of the store alone, for any directory and whoever wrote its files: a
      completed final report that loads covers the brief with passed criteria, and behind them
      are a loaded test report all of whose commands exited 0 and loaded accepting reviews that
      cover exactly its manual criteria. */
  lemma LoadedCompletionIsBacked(sha: Content -> nat, c: Context, disk: Disk, r: Reference, f: FinalReport)
    returns (record: IterationRecord, tests: seq<TestReport>, reviews: seq<ReviewReport>)
    requires PathsUnique(disk) && Load(sha, c, disk, r, {}) == Some(FinalArtifact(f)) && f.status.CompletedRun?
    ensures TestsAt(sha, c, disk, record.tests, tests) && ReviewsAt(sha, c, disk, record.reviews, reviews)
    ensures record.decision.AcceptIteration? && f.finalCommit == Some(record.outputCommit)
    ensures Elements(CriterionIds(f.acceptance)) == Elements(c.brief)
    ensures forall i :: 0 <= i < |f.acceptance| ==> f.acceptance[i].status.Passed?
    ensures tests != [] && f.acceptance == SettledResults(tests[0]) && CommandsPass(tests[0].commands)
    ensures AllAccept(reviews) && ReviewedCriteria(reviews) == Elements(tests[0].manual)
  {
    hide RecordEvidence, TestsAt, ReviewsAt, FinalEvidence, ReportBacked, LoadAll, ValidTestReport, CommandsPass;
    hide ReviewedCriteria, AllAccept;
    var inside := Entering(disk, {}, Find(disk, r.path).value);
    assert ReferencesOk(sha, c, disk, FinalArtifact(f), inside);
    var ref;
    ref, record := LastRecordMatches(sha, c, disk, f, inside);
    var works;
    works, tests, reviews := LoadedRecordIsBacked(sha, c, disk, ref, record);
    FirstReportIs(sha, c, disk, record.tests, tests, inside);
    AcceptedMeansPassed(c.team, record, works, tests, reviews);
  }
}
