/** The terminal evidence bundle (artifact_store.py): final report, human report and
    budget ledger are linked into place together, and taken back together when the
    controller's transition fails. */
module TerminalBundle {
  import opened Prelude

  datatype Path = FinalReportJson | FinalReportMarkdown | BudgetLedgerJson | OtherPath(name: string)

  type Bytes = string
  type Digest = nat

  datatype Entry = File(content: Bytes) | NotRegular

  type Files = map<Path, Entry>

  /** The canonical paths in the order they are linked. */
  const CANONICAL: seq<Path> := [FinalReportJson, FinalReportMarkdown, BudgetLedgerJson]

  const BUNDLE_PATHS: set<Path> := {FinalReportJson, FinalReportMarkdown, BudgetLedgerJson}

  datatype Fault = Works | FailsBefore | FailsAfter

  /** `staging` is the preparation of the temporary files, `links` the three link
      calls, `sync` the directory sync, `unlinks` the calls that clean up. Another
      process may put `arrivals[k]` at path k just before its link, if the path is
      still free, and `replacements[k]` over path k once it was linked. */
  datatype Faults = Faults(
    staging: bool, links: seq<Fault>, sync: bool, unlinks: seq<Fault>,
    arrivals: seq<Option<Entry>>, replacements: seq<Option<Entry>>)

  predicate ValidFaults(f: Faults) {
    |f.links| == 3 && |f.unlinks| == 3 && |f.arrivals| == 3 && |f.replacements| == 3
  }

  datatype Bundle = Bundle(digests: seq<Digest>)

  // --------------------------------------------------------------- committing

  predicate AnyPresent(files: Files) {
    exists i :: 0 <= i < 3 && CANONICAL[i] in files
  }

  /** What the directory holds when link k is attempted. */
  function Arrive(files: Files, k: nat, f: Faults): Files
    requires k < 3 && ValidFaults(f)
  {
    if f.arrivals[k].Some? && CANONICAL[k] !in files then files[CANONICAL[k] := f.arrivals[k].value] else files
  }

  /** Links k.. in order: the directory, how many links returned, and success. */
  function LinkFrom(files: Files, contents: seq<Bytes>, k: nat, f: Faults): (r: (Files, nat, bool))
    requires k <= 3 && |contents| == 3 && ValidFaults(f)
    ensures k <= r.1 <= 3
    decreases 3 - k
  {
    if k == 3 then (files, 3, true)
    else
      var at := Arrive(files, k, f);
      if CANONICAL[k] in at || f.links[k].FailsBefore? then (at, k, false)
      else
        var linked := at[CANONICAL[k] := File(contents[k])];
        if f.links[k].FailsAfter? then (linked, k, false) else LinkFrom(linked, contents, k + 1, f)
  }

  /** What the directory holds once others have replaced some of the linked files. */
  function Replace(files: Files, created: nat, f: Faults): Files
    requires created <= 3 && ValidFaults(f)
  {
    if created == 0 then files
    else
      var rest := Replace(files, created - 1, f);
      if f.replacements[created - 1].Some? then rest[CANONICAL[created - 1] := f.replacements[created - 1].value]
      else rest
  }

  /** Unlinks paths k-1 down to 0; a failing unlink stops the loop. */
  function UnlinkDown(files: Files, k: nat, unlinks: seq<Fault>): (Files, bool)
    requires k <= 3 && |unlinks| == 3
  {
    if k == 0 then (files, true)
    else
      match unlinks[k - 1]
      case Works => UnlinkDown(files - {CANONICAL[k - 1]}, k - 1, unlinks)
      case FailsBefore => (files, false)
      case FailsAfter => (files - {CANONICAL[k - 1]}, false)
  }

  /** `write_final_report_bundle`, after its validation of the report. */
  function WriteBundle(sha: Bytes -> Digest, files: Files, contents: seq<Bytes>, f: Faults): (Files, Option<Bundle>)
    requires |contents| == 3 && ValidFaults(f)
  {
    if AnyPresent(files) || f.staging then (files, None)
    else
      var (linked, created, ok) := LinkFrom(files, contents, 0, f);
      var seen := Replace(linked, created, f);
      if ok && !f.sync then (seen, Some(Bundle([sha(contents[0]), sha(contents[1]), sha(contents[2])])))
      else (UnlinkDown(seen, created, f.unlinks).0, None)
  }

  // ------------------------------------------------------------- taking back

  /** The rollback's first loop: every target is a regular file of its digest. */
  predicate Intact(sha: Bytes -> Digest, files: Files, b: Bundle)
    requires |b.digests| == 3
  {
    forall i :: 0 <= i < 3 ==>
      CANONICAL[i] in files && files[CANONICAL[i]].File? && sha(files[CANONICAL[i]].content) == b.digests[i]
  }

  /** `rollback_final_report_bundle`. */
  function Rollback(sha: Bytes -> Digest, files: Files, b: Bundle, unlinks: seq<Fault>): (Files, bool)
    requires |b.digests| == 3 && |unlinks| == 3
  {
    if !Intact(sha, files, b) then (files, false) else UnlinkDown(files, 3, unlinks)
  }

  /** `bind_final_report_bundle`: `files` is the directory the transition leaves. */
  function Bind(sha: Bytes -> Digest, files: Files, b: Bundle, raised: bool, unlinks: seq<Fault>): Files
    requires |b.digests| == 3 && |unlinks| == 3
  {
    if raised then Rollback(sha, files, b, unlinks).0 else files
  }

  // ------------------------------------------------------------------ theorems

  function Prepared(contents: seq<Bytes>): Files
    requires |contents| == 3
  {
    map[FinalReportJson := File(contents[0]), FinalReportMarkdown := File(contents[1]),
        BudgetLedgerJson := File(contents[2])]
  }

  /** Others replace none of the linked files. */
  predicate Unreplaced(f: Faults)
    requires ValidFaults(f)
  {
    forall k :: 0 <= k < 3 ==> f.replacements[k].None?
  }

  /** Nobody else writes to the canonical paths. */
  predicate Undisturbed(f: Faults)
    requires ValidFaults(f)
  {
    Unreplaced(f) && forall k :: 0 <= k < 3 ==> f.arrivals[k].None?
  }

  /** Link k finds its path free and returns. */
  predicate LinkReturns(f: Faults, k: nat)
    requires k < 3 && ValidFaults(f)
  {
    f.arrivals[k].None? && f.links[k].Works?
  }

  /** How many links return before one raises. */
  function LinksMade(f: Faults): (n: nat)
    requires ValidFaults(f)
    ensures n <= 3
  {
    if !LinkReturns(f, 0) then 0 else if !LinkReturns(f, 1) then 1 else if !LinkReturns(f, 2) then 2 else 3
  }

  /** The link that raised had taken effect. */
  predicate LateLink(f: Faults)
    requires ValidFaults(f)
  {
    LinksMade(f) < 3 && f.arrivals[LinksMade(f)].None? && f.links[LinksMade(f)].FailsAfter?
  }

  /** An unlink loop that starts below `k` removes path `i`. */
  predicate Removes(unlinks: seq<Fault>, k: nat, i: nat)
    requires k <= 3 && |unlinks| == 3
  {
    i < k && !unlinks[i].FailsBefore? && forall j: nat :: i < j < k ==> unlinks[j].Works?
  }

  /** An unlink loop removes exactly the paths it reaches. */
  lemma {:induction false} UnlinkShape(files: Files, k: nat, unlinks: seq<Fault>)
    requires k <= 3 && |unlinks| == 3
    ensures var files' := UnlinkDown(files, k, unlinks).0;
            && (forall p :: p in files' <==>
                  p in files && forall i: nat :: Removes(unlinks, k, i) ==> CANONICAL[i] != p)
            && (forall p :: p in files' ==> files'[p] == files[p])
    ensures (forall i: nat :: i < k ==> unlinks[i].Works?) ==> UnlinkDown(files, k, unlinks).1
  {
    if k == 0 {
    } else {
      if unlinks[k - 1].Works? {
        UnlinkShape(files - {CANONICAL[k - 1]}, k - 1, unlinks);
        assert forall i: nat :: i < k - 1 ==> (Removes(unlinks, k, i) <==> Removes(unlinks, k - 1, i));
        assert Removes(unlinks, k, k - 1);
      } else {
        assert forall i: nat :: i < k - 1 ==> !Removes(unlinks, k, i);
        assert Removes(unlinks, k, k - 1) <==> unlinks[k - 1].FailsAfter?;
      }
    }
  }

  lemma CanonicalPaths()
    ensures forall p :: p in BUNDLE_PATHS <==> exists i: nat :: i < 3 && CANONICAL[i] == p
    ensures forall i: nat, j: nat :: i < j < 3 ==> CANONICAL[i] != CANONICAL[j]
  {
    assert CANONICAL[0] == FinalReportJson && CANONICAL[1] == FinalReportMarkdown && CANONICAL[2] == BudgetLedgerJson;
  }

  lemma {:induction false} ReplaceShape(files: Files, created: nat, f: Faults)
    requires created <= 3 && ValidFaults(f) && forall i: nat :: i < created ==> CANONICAL[i] in files
    ensures var seen := Replace(files, created, f);
            && seen.Keys == files.Keys
            && (forall i: nat :: i < created ==>
                  seen[CANONICAL[i]]
                  == if f.replacements[i].Some? then f.replacements[i].value else files[CANONICAL[i]])
            && (forall p :: p in files && (forall i: nat :: i < created ==> CANONICAL[i] != p) ==> seen[p] == files[p])
  {
    if created == 0 {
    } else {
      ReplaceShape(files, created - 1, f);
      CanonicalPaths();
      var last := CANONICAL[created - 1];
      var rest, seen := Replace(files, created - 1, f), Replace(files, created, f);
      assert last in rest && rest[last] == files[last];
      assert seen == if f.replacements[created - 1].None? then rest
                     else rest[last := f.replacements[created - 1].value];
    }
  }

  /** What a run of links from k adds: its own files, and possibly, at the path
      where it stopped, someone else's file or its own late one. */
  predicate LinkedFrom(files: Files, contents: seq<Bytes>, k: nat, f: Faults, files': Files, stop: nat, ok: bool)
    requires |contents| == 3 && ValidFaults(f)
  {
    && k <= stop <= 3 && (ok <==> stop == 3)
    && (forall p :: p in files ==> p in files' && files'[p] == files[p])
    && (forall i: nat :: k <= i < stop ==>
          LinkReturns(f, i) && CANONICAL[i] in files' && files'[CANONICAL[i]] == File(contents[i]))
    && (forall p :: p in files' && p !in files ==> exists i: nat :: k <= i <= stop && i < 3 && CANONICAL[i] == p)
    && (stop < 3 ==>
          && !LinkReturns(f, stop)
          && (CANONICAL[stop] in files' <==> f.arrivals[stop].Some? || f.links[stop].FailsAfter?)
          && (f.arrivals[stop].Some? ==> files'[CANONICAL[stop]] == f.arrivals[stop].value))
  }

  /** Link k finds its path taken, or raises. */
  lemma LinkStops(files: Files, contents: seq<Bytes>, k: nat, f: Faults)
    requires k < 3 && |contents| == 3 && ValidFaults(f) && CANONICAL[k] !in files && !LinkReturns(f, k)
    ensures var (files', stop, ok) := LinkFrom(files, contents, k, f);
            LinkedFrom(files, contents, k, f, files', stop, ok)
  {
    var files' := LinkFrom(files, contents, k, f).0;
    assert files' == if f.arrivals[k].Some? then files[CANONICAL[k] := f.arrivals[k].value]
                     else if f.links[k].FailsAfter? then files[CANONICAL[k] := File(contents[k])] else files;
    assert LinkFrom(files, contents, k, f).1 == k;
    hide LinkFrom, Arrive;
  }

  /** Link k returns, and the run goes on from the next path. */
  lemma LinkExtends(files: Files, contents: seq<Bytes>, k: nat, f: Faults, files': Files, stop: nat, ok: bool)
    requires k < 3 && |contents| == 3 && ValidFaults(f) && CANONICAL[k] !in files && LinkReturns(f, k)
    requires LinkedFrom(files[CANONICAL[k] := File(contents[k])], contents, k + 1, f, files', stop, ok)
    ensures LinkedFrom(files, contents, k, f, files', stop, ok)
  {
    hide LinkReturns;
    var linked := files[CANONICAL[k] := File(contents[k])];
    assert CANONICAL[k] in linked;
  }

  lemma LinkGoesOn(files: Files, contents: seq<Bytes>, k: nat, f: Faults)
    requires k < 3 && |contents| == 3 && ValidFaults(f) && CANONICAL[k] !in files && LinkReturns(f, k)
    ensures LinkFrom(files, contents, k, f) == LinkFrom(files[CANONICAL[k] := File(contents[k])], contents, k + 1, f)
  {
  }

  lemma LinkDone(files: Files, contents: seq<Bytes>, f: Faults)
    requires |contents| == 3 && ValidFaults(f)
    ensures LinkedFrom(files, contents, 3, f, files, 3, true)
  {
  }

  lemma {:induction false} LinkShape(files: Files, contents: seq<Bytes>, k: nat, f: Faults)
    requires k <= 3 && |contents| == 3 && ValidFaults(f)
    requires forall i: nat :: k <= i < 3 ==> CANONICAL[i] !in files
    ensures var (files', stop, ok) := LinkFrom(files, contents, k, f);
            LinkedFrom(files, contents, k, f, files', stop, ok)
    decreases 3 - k
  {
    hide LinkedFrom, LinkReturns, Arrive;
    if k == 3 {
      LinkDone(files, contents, f);
    } else if LinkReturns(f, k) {
      var linked := files[CANONICAL[k] := File(contents[k])];
      CanonicalPaths();
      LinkShape(linked, contents, k + 1, f);
      LinkGoesOn(files, contents, k, f);
      var (files', stop, ok) := LinkFrom(linked, contents, k + 1, f);
      LinkExtends(files, contents, k, f, files', stop, ok);
    } else {
      LinkStops(files, contents, k, f);
    }
  }

  /** The links of a bundle, and what others made of the linked files. */
  lemma LinkedShape(files: Files, contents: seq<Bytes>, f: Faults)
    requires |contents| == 3 && ValidFaults(f) && !AnyPresent(files)
    ensures var (linked, n, ok) := LinkFrom(files, contents, 0, f);
            var seen := Replace(linked, n, f);
            && n == LinksMade(f) && (ok <==> n == 3)
            && (forall p :: p in files ==> p in seen && seen[p] == files[p])
            && (forall k: nat :: k < n ==>
                  && CANONICAL[k] in seen
                  && seen[CANONICAL[k]]
                     == if f.replacements[k].Some? then f.replacements[k].value else File(contents[k]))
            && (forall p :: p in seen && p !in files ==> exists k: nat :: k <= n && k < 3 && CANONICAL[k] == p)
            && (n < 3 ==>
                  && (CANONICAL[n] in seen <==> f.arrivals[n].Some? || f.links[n].FailsAfter?)
                  && (f.arrivals[n].Some? ==> seen[CANONICAL[n]] == f.arrivals[n].value))
  {
    var (linked, n, ok) := LinkFrom(files, contents, 0, f);
    LinkShape(files, contents, 0, f);
    ReplaceShape(linked, n, f);
    CanonicalPaths();
    assert forall k: nat :: k < 3 ==> CANONICAL[k] !in files;
  }

  lemma PreparedShape(files: Files, files': Files, contents: seq<Bytes>)
    requires |contents| == 3 && files'.Keys == files.Keys + BUNDLE_PATHS && !AnyPresent(files)
    requires forall p :: p in files ==> files'[p] == files[p]
    requires forall k: nat :: k < 3 ==> CANONICAL[k] in files' && files'[CANONICAL[k]] == File(contents[k])
    ensures files' == files + Prepared(contents)
  {
    CanonicalPaths();
    assert CANONICAL[0] == FinalReportJson && CANONICAL[1] == FinalReportMarkdown && CANONICAL[2] == BudgetLedgerJson;
    assert Prepared(contents).Keys == BUNDLE_PATHS;
    forall p | p in files' ensures files'[p] == (files + Prepared(contents))[p] {
      if p in BUNDLE_PATHS { var k: nat :| k < 3 && CANONICAL[k] == p; }
    }
  }

  /** A returned bundle means that none of the three files existed before, that each now has
      the given content unless another writer has since replaced it, and that nothing else
      changed; unreplaced, all three carry their digests. */
  lemma SuccessIsAllThree(sha: Bytes -> Digest, files: Files, contents: seq<Bytes>, f: Faults)
    requires |contents| == 3 && ValidFaults(f)
    requires WriteBundle(sha, files, contents, f).1.Some?
    ensures var (files', b) := WriteBundle(sha, files, contents, f);
            && !AnyPresent(files)
            && files'.Keys == files.Keys + BUNDLE_PATHS
            && (forall p :: p in files ==> files'[p] == files[p])
            && (forall k: nat :: k < 3 && f.replacements[k].Some? ==> files'[CANONICAL[k]] == f.replacements[k].value)
            && (forall k: nat :: k < 3 && f.replacements[k].None? ==> files'[CANONICAL[k]] == File(contents[k]))
            && |b.value.digests| == 3
            && (Unreplaced(f) ==> files' == files + Prepared(contents) && Intact(sha, files', b.value))
  {
    LinkedShape(files, contents, f);
    CanonicalPaths();
    var (files', b) := WriteBundle(sha, files, contents, f);
    assert files'.Keys == files.Keys + BUNDLE_PATHS;
    if Unreplaced(f) { PreparedShape(files, files', contents); }
  }

  /** What a failed write leaves at each path: everything that was there; at the path of a
      link that returned, its own or a replacing file, unless the cleanup reached it; and at
      the path where linking stopped, another writer's file or its own late one. */
  lemma FailureShape(sha: Bytes -> Digest, files: Files, contents: seq<Bytes>, f: Faults)
    requires |contents| == 3 && ValidFaults(f) && !AnyPresent(files) && !f.staging
    requires WriteBundle(sha, files, contents, f).1.None?
    ensures var files' := WriteBundle(sha, files, contents, f).0;
            var n := LinksMade(f);
            && (forall p :: p in files ==> p in files' && files'[p] == files[p])
            && (forall k: nat :: k < n ==> (CANONICAL[k] in files' <==> !Removes(f.unlinks, n, k)))
            && (forall k: nat :: k < n && CANONICAL[k] in files' ==>
                  files'[CANONICAL[k]]
                  == if f.replacements[k].Some? then f.replacements[k].value else File(contents[k]))
            && (forall p :: p in files' && p !in files ==> exists k: nat :: k <= n && k < 3 && CANONICAL[k] == p)
            && (n < 3 ==>
                  && (CANONICAL[n] in files' <==> f.arrivals[n].Some? || f.links[n].FailsAfter?)
                  && (f.arrivals[n].Some? ==> files'[CANONICAL[n]] == f.arrivals[n].value))
  {
    LinkedShape(files, contents, f);
    var (linked, n, ok) := LinkFrom(files, contents, 0, f);
    UnlinkShape(Replace(linked, n, f), n, f.unlinks);
    CanonicalPaths();
  }

  /** A failed write that nobody disturbs leaves all paths as before exactly when no link
      raised after taking effect, since only links that returned are undone, and the cleanup
      removed every file that was linked. */
  lemma FailureIsAsBeforeIff(sha: Bytes -> Digest, files: Files, contents: seq<Bytes>, f: Faults)
    requires |contents| == 3 && ValidFaults(f) && Undisturbed(f)
    requires WriteBundle(sha, files, contents, f).1.None?
    ensures WriteBundle(sha, files, contents, f).0 == files
            <==> || AnyPresent(files)
                 || f.staging
                 || (!LateLink(f) && forall k: nat :: k < LinksMade(f) ==> Removes(f.unlinks, LinksMade(f), k))
  {
    if !AnyPresent(files) && !f.staging {
      FailureShape(sha, files, contents, f);
      var files' := WriteBundle(sha, files, contents, f).0;
      assert forall k: nat :: k < 3 ==> CANONICAL[k] !in files;
      if !LateLink(f) && forall k: nat :: k < LinksMade(f) ==> Removes(f.unlinks, LinksMade(f), k) {
        assert forall k: nat :: k < 3 && k <= LinksMade(f) ==> CANONICAL[k] !in files';
      }
    }
  }

  /** What a failed write does to the files of other writers: whatever was there before
      stays, and so does a file that takes a canonical path before its link. One that
      replaces a linked file is lost exactly when the cleanup reaches its path. */
  lemma ForeignFilesSurvive(sha: Bytes -> Digest, files: Files, contents: seq<Bytes>, f: Faults)
    requires |contents| == 3 && ValidFaults(f) && WriteBundle(sha, files, contents, f).1.None?
    ensures var files' := WriteBundle(sha, files, contents, f).0;
            var n := LinksMade(f);
            && (forall p :: p in files ==> p in files' && files'[p] == files[p])
            && (!AnyPresent(files) && !f.staging ==>
                  && (n < 3 && f.arrivals[n].Some? ==> Holds(files', CANONICAL[n], f.arrivals[n].value))
                  && (forall k: nat :: k < n && f.replacements[k].Some? ==>
                        (CANONICAL[k] !in files' <==> Removes(f.unlinks, n, k))
                        && (CANONICAL[k] in files' ==> Holds(files', CANONICAL[k], f.replacements[k].value))))
  {
    if !AnyPresent(files) && !f.staging { FailureShape(sha, files, contents, f); }
  }

  predicate Holds(files: Files, p: Path, e: Entry) {
    p in files && files[p] == e
  }

  /** A failed transition takes the bundle back, and only the bundle, exactly when
      all three files still carry its digests; otherwise it removes nothing. */
  lemma FailedTransition(sha: Bytes -> Digest, files: Files, b: Bundle, unlinks: seq<Fault>)
    requires |b.digests| == 3 && |unlinks| == 3 && forall i :: 0 <= i < 3 ==> unlinks[i].Works?
    ensures Bind(sha, files, b, true, unlinks)
            == if Intact(sha, files, b) then files - BUNDLE_PATHS else files
  {
    UnlinkShape(files, 3, unlinks);
    CanonicalPaths();
    assert forall i: nat :: i < 3 ==> Removes(unlinks, 3, i);
  }

  /** Even when an unlink fails, only canonical files of the prepared content go. */
  lemma OnlyPreparedContentGoes(sha: Bytes -> Digest, files: Files, contents: seq<Bytes>, b: Bundle, raised: bool,
                                unlinks: seq<Fault>, p: Path)
    requires |contents| == 3 && |unlinks| == 3
    requires forall x, y :: sha(x) == sha(y) ==> x == y
    requires b == Bundle([sha(contents[0]), sha(contents[1]), sha(contents[2])])
    ensures var files' := Bind(sha, files, b, raised, unlinks);
            && (p in files' ==> p in files && files'[p] == files[p])
            && (p in files && p !in files' ==>
                  raised && exists k: nat :: k < 3 && CANONICAL[k] == p && files[p] == File(contents[k]))
  {
    if raised && Intact(sha, files, b) {
      UnlinkShape(files, 3, unlinks);
      forall k: nat | k < 3 ensures files[CANONICAL[k]] == File(contents[k]) {
        assert b.digests[k] == sha(contents[k]);
      }
    }
  }

  /** What replaced a linked file, if anything did, is a file of the same digest. */
  predicate SameDigests(sha: Bytes -> Digest, contents: seq<Bytes>, f: Faults)
    requires |contents| == 3 && ValidFaults(f)
  {
    forall k :: 0 <= k < 3 && f.replacements[k].Some? ==>
      f.replacements[k].value.File? && sha(f.replacements[k].value.content) == sha(contents[k])
  }

  /** Committing and then failing to bind restores the directory exactly, unless another
      writer has changed one of the three files; then it leaves everything in place. */
  lemma WriteThenFailedBind(sha: Bytes -> Digest, files: Files, contents: seq<Bytes>, f: Faults, unlinks: seq<Fault>)
    requires |contents| == 3 && ValidFaults(f) && WriteBundle(sha, files, contents, f).1.Some?
    requires |unlinks| == 3 && forall i :: 0 <= i < 3 ==> unlinks[i].Works?
    ensures var (files', b) := WriteBundle(sha, files, contents, f);
            && |b.value.digests| == 3
            && Bind(sha, files', b.value, true, unlinks) == (if SameDigests(sha, contents, f) then files else files')
            && (Bind(sha, files', b.value, true, unlinks) == files <==> SameDigests(sha, contents, f))
  {
    SuccessIsAllThree(sha, files, contents, f);
    var (files', b) := WriteBundle(sha, files, contents, f);
    FailedTransition(sha, files', b.value, unlinks);
    CanonicalPaths();
    assert forall k: nat :: k < 3 ==> CANONICAL[k] !in files;
    assert Intact(sha, files', b.value) <==> SameDigests(sha, contents, f) by {
      assert forall k: nat :: k < 3 ==> b.value.digests[k] == sha(contents[k]);
    }
    assert CANONICAL[0] in files';
  }

  // ------------------------------------------------------------------- methods

  class RunDirectory {
    const sha: Bytes -> Digest
    var files: Files

    constructor (sha: Bytes -> Digest, files: Files)
      ensures this.sha == sha && this.files == files
    {
      this.sha, this.files := sha, files;
    }

    method CommitBundle(contents: seq<Bytes>, f: Faults) returns (bundle: Option<Bundle>)
      requires |contents| == 3 && ValidFaults(f)
      modifies this
      ensures (files, bundle) == WriteBundle(sha, old(files), contents, f)
    {
      if AnyPresent(files) { return None; }
      if f.staging { return None; }
      ghost var (linked, count, success) := LinkFrom(files, contents, 0, f);
      var created := 0;
      var raised := false;
      while created < 3 && !raised
        invariant created <= 3
        invariant !raised ==> LinkFrom(files, contents, created, f) == (linked, count, success)
        invariant raised ==> files == linked && created == count && !success
        decreases 3 - created, !raised
      {
        files := Arrive(files, created, f);
        if CANONICAL[created] in files || f.links[created].FailsBefore? {
          raised := true;
        } else {
          files := files[CANONICAL[created] := File(contents[created])];
          if f.links[created].FailsAfter? {
            raised := true;
          } else {
            created := created + 1;
          }
        }
      }
      assert (files, created, !raised) == LinkFrom(old(files), contents, 0, f);
      files := Replace(files, created, f); // the other writers' step
      if raised || f.sync {
        var _ := RemoveDown(created, f.unlinks);
        return None;
      }
      return Some(Bundle([sha(contents[0]), sha(contents[1]), sha(contents[2])]));
    }

    /** The unlink loop of the failed write and of the rollback. */
    method RemoveDown(count: nat, unlinks: seq<Fault>) returns (ok: bool)
      requires count <= 3 && |unlinks| == 3
      modifies this`files
      ensures (files, ok) == UnlinkDown(old(files), count, unlinks)
    {
      var k := count;
      while k > 0
        invariant 0 <= k <= count
        invariant UnlinkDown(files, k, unlinks) == UnlinkDown(old(files), count, unlinks)
      {
        if unlinks[k - 1].FailsBefore? { return false; }
        files := files - {CANONICAL[k - 1]};
        if unlinks[k - 1].FailsAfter? { return false; }
        k := k - 1;
      }
      return true;
    }

    method TakeBack(b: Bundle, unlinks: seq<Fault>) returns (ok: bool)
      requires |b.digests| == 3 && |unlinks| == 3
      modifies this`files
      ensures (files, ok) == Rollback(sha, old(files), b, unlinks)
    {
      for i := 0 to 3
        invariant files == old(files)
        invariant forall j :: 0 <= j < i ==>
                    && CANONICAL[j] in files && files[CANONICAL[j]].File?
                    && sha(files[CANONICAL[j]].content) == b.digests[j]
      {
        if CANONICAL[i] !in files || !files[CANONICAL[i]].File? { return false; }
        if sha(files[CANONICAL[i]].content) != b.digests[i] { return false; }
      }
      ok := RemoveDown(3, unlinks);
    }
  }
}
