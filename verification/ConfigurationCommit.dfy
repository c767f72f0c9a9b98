/** The two-authority configuration commit (cli.py): the user file and the provider
    state directory change together or not at all. Any step may fail before or
    after it takes effect, as when a signal arrives around a rename. */
module ConfigurationCommit {
  import opened Prelude

  /** A provider state directory, named by its contents. */
  datatype Tree = Tree(contents: string)

  datatype UserEntry =
    | Missing
    | RegularFile(content: string, mode: nat)
    | SymlinkToFile(content: string, mode: nat)   // content and mode of its target
    | DanglingSymlink
    | Directory

  /** The paths the transaction touches. `backup` is the child of the recovery
      directory `root`, which is reserved under a name of its own. */
  datatype Disk = Disk(user: UserEntry, live: Option<Tree>, staged: Option<Tree>, backup: Option<Tree>, root: bool)

  datatype Fault = Works | FailsBefore | FailsAfter

  /** One fault per step, in the order the steps are attempted. */
  datatype Faults = Faults(
    reserve: Fault, save: Fault, retire: Fault, activate: Fault,
    unactivate: Fault, unretire: Fault, restore: Fault)

  datatype Status = Committed | RolledBack | RollbackIncomplete

  /** Mode of every file the saver writes: 0600. */
  const PRIVATE_MODE: nat := 384

  // -------------------------------------------------------------------- steps

  /** A step that maps `before` to `after`, and whether it returned. */
  function Attempt(before: Disk, after: Disk, fault: Fault): (Disk, bool) {
    match fault
    case Works => (after, true)
    case FailsBefore => (before, false)
    case FailsAfter => (after, false)
  }

  function Reserve(d: Disk, fault: Fault): (Disk, bool) {
    Attempt(d, d.(root := true), fault)
  }

  /** `save_user_configuration` refuses links and non-files before writing. */
  function Save(d: Disk, content: string, fault: Fault): (Disk, bool) {
    if d.user.SymlinkToFile? || d.user.DanglingSymlink? || d.user.Directory? then (d, false)
    else Attempt(d, d.(user := RegularFile(content, PRIVATE_MODE)), fault)
  }

  /** `os.replace(live, backup)`, when there is a live tree. */
  function Retire(d: Disk, fault: Fault): (Disk, bool) {
    if d.live.None? then (d, true) else Attempt(d, d.(live := None, backup := d.live), fault)
  }

  /** `os.replace(staged, live)`. */
  function Activate(d: Disk, fault: Fault): (Disk, bool) {
    if d.staged.None? || d.live.Some? then (d, false) else Attempt(d, d.(staged := None, live := d.staged), fault)
  }

  /** `os.replace(live, staged)`, when the paths say that activation took effect. */
  function Unactivate(d: Disk, fault: Fault): (Disk, bool) {
    if d.staged.None? && d.live.Some? then Attempt(d, d.(live := None, staged := d.live), fault) else (d, true)
  }

  /** `os.replace(backup, live)`, when the paths say that retiring took effect. */
  function Unretire(d: Disk, fault: Fault): (Disk, bool) {
    if d.backup.None? then (d, true)
    else if d.live.Some? then (d, false)
    else Attempt(d, d.(backup := None, live := d.backup), fault)
  }

  predicate WasFile(entry: UserEntry) {
    entry.RegularFile? || entry.SymlinkToFile?
  }

  /** `_restore_user_configuration` with what was read before the transaction. */
  function Restore(d: Disk, prior: UserEntry, fault: Fault): (Disk, bool) {
    if WasFile(prior) then Attempt(d, d.(user := RegularFile(prior.content, prior.mode)), fault)
    else if d.user.Directory? then (d, false)
    else Attempt(d, d.(user := Missing), fault)
  }

  // -------------------------------------------------------------- transaction

  /** The `try` body: the disk it leaves, and how far it came. */
  function Forward(d: Disk, content: string, supplied: bool, f: Faults): (Disk, bool, bool, bool) {
    var (d0, reserved) := if supplied then Reserve(d, f.reserve) else (d, true);
    if !reserved then (d0, false, false, false)
    else
      var (d1, saved) := Save(d0, content, f.save);
      if !saved || !supplied then (d1, saved, supplied, true)
      else
        var (d2, retired) := Retire(d1, f.retire);
        if !retired then (d2, false, true, true)
        else
          var (d3, activated) := Activate(d2, f.activate);
          (d3, activated, true, true)
  }

  /** Both directory moves of the rollback; an error in the first skips the second. */
  function UndoMoves(d: Disk, f: Faults): (Disk, bool) {
    var (d1, first) := Unactivate(d, f.unactivate);
    if first then Unretire(d1, f.unretire) else (d1, false)
  }

  function Undo(d: Disk, prior: UserEntry, reserved: bool, saveStarted: bool, f: Faults): (Disk, Status) {
    var (d1, moved) := if reserved then UndoMoves(d, f) else (d, true);
    var (d2, restored) := if saveStarted then Restore(d1, prior, f.restore) else (d1, true);
    if moved && restored then
      (if reserved && d2.backup.None? then d2.(root := false) else d2, RolledBack)
    else (d2, RollbackIncomplete)
  }

  /** `_commit_configuration_transaction`; `supplied` says whether a staged state was
      given. On success the recovery directory goes, and the old state with it. */
  function Commit(d: Disk, content: string, supplied: bool, f: Faults): (Disk, Status) {
    var (d1, done, reserved, saveStarted) := Forward(d, content, supplied, f);
    if done then (if reserved then d1.(backup := None, root := false) else d1, Committed)
    else Undo(d1, d.user, reserved, saveStarted, f)
  }

  // ----------------------------------------------------------------- theorems

  predicate Initial(d: Disk) {
    d.backup.None? && !d.root
  }

  predicate RollbackWorks(f: Faults) {
    f.unactivate.Works? && f.unretire.Works? && f.restore.Works?
  }

  predicate NoFaults(f: Faults) {
    f.reserve.Works? && f.save.Works? && f.retire.Works? && f.activate.Works? && RollbackWorks(f)
  }

  predicate SameAuthorities(d: Disk, d': Disk) {
    d'.user == d.user && d'.live == d.live && d'.staged == d.staged
  }

  /** A commit that reports success replaced both authorities; without faults it
      reports success exactly when the user path is free or a plain file and the
      staged tree is there. */
  lemma SuccessIsBothNew(d: Disk, content: string, supplied: bool, f: Faults)
    requires Initial(d)
    ensures var (d', status) := Commit(d, content, supplied, f);
            && (status.Committed? ==>
                  && d'.user == RegularFile(content, PRIVATE_MODE)
                  && (if supplied then d.staged.Some? && d'.live == d.staged && d'.staged.None?
                      else d'.live == d.live && d'.staged == d.staged)
                  && d'.backup.None? && !d'.root)
            && (NoFaults(f) ==>
                  (status.Committed? <==> (d.user.Missing? || d.user.RegularFile?) && (supplied ==> d.staged.Some?)))
  {
  }

  /** Every failure point is undone, provided the rollback's own steps work. */
  ghost predicate Atomic(d: Disk, content: string, supplied: bool) {
    forall f :: RollbackWorks(f) && !Commit(d, content, supplied, f).1.Committed?
                ==> SameAuthorities(d, Commit(d, content, supplied, f).0)
  }

  /** What a caller can check beforehand. Rollback infers progress from the paths
      that exist, so a missing staged tree beside a live one looks like a finished
      activation; and it rewrites the user path, so a symbolic link is replaced. */
  predicate SafeToCommit(d: Disk, supplied: bool) {
    && !d.user.SymlinkToFile? && !d.user.DanglingSymlink?
    && (supplied ==> d.staged.Some? || d.live.None?)
  }

  lemma SafeCommitUndoes(d: Disk, content: string, supplied: bool, f: Faults)
    requires Initial(d) && SafeToCommit(d, supplied) && RollbackWorks(f)
    requires !Commit(d, content, supplied, f).1.Committed?
    ensures SameAuthorities(d, Commit(d, content, supplied, f).0)
  {
  }

  /** The commit is atomic exactly for the disks the caller's check passes. */
  lemma AtomicIff(d: Disk, content: string, supplied: bool)
    requires Initial(d)
    ensures Atomic(d, content, supplied) <==> SafeToCommit(d, supplied)
  {
    if SafeToCommit(d, supplied) {
      forall f | RollbackWorks(f) && !Commit(d, content, supplied, f).1.Committed?
        ensures SameAuthorities(d, Commit(d, content, supplied, f).0)
      {
        SafeCommitUndoes(d, content, supplied, f);
      }
    } else {
      var f := Faults(Works, FailsBefore, Works, Works, Works, Works, Works);
      assert RollbackWorks(f) && !Commit(d, content, supplied, f).1.Committed?;
      assert !SameAuthorities(d, Commit(d, content, supplied, f).0);
    }
  }

  predicate InPlace(d: Disk, live: Option<Tree>, staged: Option<Tree>, backup: Option<Tree>) {
    d.live == live && d.staged == staged && d.backup == backup
  }

  /** The three directory paths hold the same trees, in some order. */
  predicate SameTrees(d: Disk, d': Disk) {
    || InPlace(d', d.live, d.staged, d.backup)
    || InPlace(d', d.live, d.backup, d.staged)
    || InPlace(d', d.staged, d.live, d.backup)
    || InPlace(d', d.staged, d.backup, d.live)
    || InPlace(d', d.backup, d.live, d.staged)
    || InPlace(d', d.backup, d.staged, d.live)
  }

  lemma ForwardKeepsTrees(d: Disk, content: string, supplied: bool, f: Faults)
    requires Initial(d)
    ensures var (d', _, reserved, _) := Forward(d, content, supplied, f);
            SameTrees(d, d') && (d'.backup.Some? ==> reserved) && (reserved ==> d'.root)
  {
  }

  lemma UndoKeepsTrees(d: Disk, prior: UserEntry, reserved: bool, saveStarted: bool, f: Faults)
    requires d.backup.Some? ==> d.root
    ensures var d' := Undo(d, prior, reserved, saveStarted, f).0;
            SameTrees(d, d') && (d'.backup.Some? ==> d'.root)
  {
  }

  /** Whatever fails, the rollback included, an unsuccessful commit loses neither
      directory tree, and the recovery directory stays while it holds one. */
  lemma TreesAreKept(d: Disk, content: string, supplied: bool, f: Faults)
    requires Initial(d)
    ensures var (d', status) := Commit(d, content, supplied, f);
            !status.Committed? ==> SameTrees(d, d') && (d'.backup.Some? ==> d'.root)
  {
    ForwardKeepsTrees(d, content, supplied, f);
    var (d1, _, reserved, saveStarted) := Forward(d, content, supplied, f);
    UndoKeepsTrees(d1, d.user, reserved, saveStarted, f);
  }

  // --------------------------------------------------------------- the commit

  class Paths {
    var disk: Disk

    constructor (disk: Disk)
      ensures this.disk == disk
    {
      this.disk := disk;
    }

    /** The transaction as it runs: each step in place, progress in local flags. */
    method CommitTransaction(content: string, supplied: bool, f: Faults) returns (status: Status)
      modifies this
      ensures (disk, status) == Commit(old(disk), content, supplied, f)
    {
      var prior := disk.user;
      var reserved, saveStarted, ok := false, false, true;
      if supplied {
        var step := Reserve(disk, f.reserve);
        disk, ok := step.0, step.1;
        reserved := ok;
      }
      if ok {
        saveStarted := true;
        var step := Save(disk, content, f.save);
        disk, ok := step.0, step.1;
      }
      if ok && supplied {
        var step := Retire(disk, f.retire);
        disk, ok := step.0, step.1;
      }
      if ok && supplied {
        var step := Activate(disk, f.activate);
        disk, ok := step.0, step.1;
      }
      if ok {
        if reserved { disk := disk.(backup := None, root := false); }
        return Committed;
      }
      var errors := false;
      if reserved {
        var step := Unactivate(disk, f.unactivate);
        disk := step.0;
        if step.1 {
          step := Unretire(disk, f.unretire);
          disk := step.0;
        }
        errors := !step.1;
      }
      if saveStarted {
        var step := Restore(disk, prior, f.restore);
        disk := step.0;
        errors := errors || !step.1;
      }
      if errors { return RollbackIncomplete; }
      if reserved && disk.backup.None? { disk := disk.(root := false); }
      return RolledBack;
    }
  }
}
