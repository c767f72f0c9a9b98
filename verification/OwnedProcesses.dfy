/** Which observed processes a quality-gate stage owns (full_gate.py): the seeds,
    everything below them in the process tree, and still-live identities seen
    earlier. */
module OwnedProcesses {
  import opened Prelude

  datatype Process = Process(pid: int, parentPid: int, groupId: int, startTicks: nat)

  datatype Identity = Identity(pid: int, startTicks: nat)

  function IdentityOf(p: Process): Identity {
    Identity(p.pid, p.startTicks)
  }

  /** One reading of the process table, keyed by process ID. */
  type Table = t: map<int, Process> | forall pid :: pid in t ==> t[pid].pid == pid

  /** How a stage is recognised; `carriesStage` is the environment probe of one
      process, consulted only when the stage has an identity. */
  datatype Stage = Stage(
    rootPid: int,
    groupId: int,
    hasIdentity: bool,
    carriesStage: int -> bool,
    supervisorPid: Option<int>,
    subreaperActive: bool)

  predicate Marked(stage: Stage, p: Process) {
    || p.groupId == stage.groupId
    || (&& stage.hasIdentity
        && (!stage.subreaperActive || stage.supervisorPid == Some(p.parentPid))
        && stage.carriesStage(p.pid))
  }

  function Seeds(t: Table, stage: Stage): set<int> {
    (set pid | pid in t && Marked(stage, t[pid])) + {stage.rootPid}
  }

  // ------------------------------------------------------------------ meaning

  /** `chain` leads from a seed to its last process by parent-to-child links. */
  predicate Lineage(t: Table, seeds: set<int>, chain: seq<int>) {
    && chain != []
    && chain[0] in seeds
    && forall i :: 0 < i < |chain| ==> chain[i] in t && t[chain[i]].parentPid == chain[i - 1]
  }

  ghost predicate Descends(t: Table, seeds: set<int>, pid: int) {
    exists chain :: Lineage(t, seeds, chain) && chain[|chain| - 1] == pid
  }

  /** An earlier identity that is still the same process, not a reused number. */
  predicate StillLive(t: Table, tracked: map<Identity, Process>, pid: int) {
    pid in t && IdentityOf(t[pid]) in tracked
  }

  ghost predicate Owned(t: Table, stage: Stage, tracked: map<Identity, Process>, pid: int) {
    pid in t && (Descends(t, Seeds(t, stage), pid) || StillLive(t, tracked, pid))
  }

  lemma SeedDescends(t: Table, seeds: set<int>, pid: int)
    requires pid in seeds
    ensures Descends(t, seeds, pid)
  {
    assert Lineage(t, seeds, [pid]);
  }

  lemma ChildDescends(t: Table, seeds: set<int>, pid: int)
    requires pid in t && Descends(t, seeds, t[pid].parentPid)
    ensures Descends(t, seeds, pid)
  {
    var chain :| Lineage(t, seeds, chain) && chain[|chain| - 1] == t[pid].parentPid;
    assert Lineage(t, seeds, chain + [pid]);
    assert (chain + [pid])[|chain|] == pid;
  }

  predicate Closed(t: Table, selected: set<int>) {
    forall pid :: pid in t && t[pid].parentPid in selected ==> pid in selected
  }

  lemma {:induction false} ClosedHoldsLineage(t: Table, seeds: set<int>, selected: set<int>, chain: seq<int>, i: nat)
    requires seeds <= selected && Closed(t, selected)
    requires Lineage(t, seeds, chain) && i < |chain|
    ensures chain[i] in selected
  {
    if i == 0 {
    } else {
      ClosedHoldsLineage(t, seeds, selected, chain, i - 1);
      assert t[chain[i]].parentPid in selected;
    }
  }

  // ------------------------------------------------------------------ fixpoint

  /** The `while changed` loop: one pass over the table per round, adding children
      of selected processes as they are met. */
  method SelectDescendants(t: Table, seeds: set<int>) returns (selected: set<int>)
    ensures forall pid :: pid in selected <==> Descends(t, seeds, pid)
  {
    selected := seeds;
    var changed := true;
    forall pid | pid in seeds ensures Descends(t, seeds, pid) { SeedDescends(t, seeds, pid); }
    while changed
      invariant seeds <= selected
      invariant forall pid :: pid in selected ==> Descends(t, seeds, pid)
      invariant changed || Closed(t, selected)
      decreases t.Keys - selected, changed
    {
      changed := false;
      ghost var before := selected;
      var remaining := t.Keys;
      while remaining != {}
        invariant remaining <= t.Keys && before <= selected && seeds <= selected
        invariant forall pid :: pid in selected ==> Descends(t, seeds, pid)
        invariant changed ==> exists pid :: pid in t.Keys && pid in selected && pid !in before
        invariant !changed ==> selected == before
        invariant !changed ==>
                    forall pid :: pid in t.Keys - remaining && t[pid].parentPid in selected ==> pid in selected
        decreases remaining
      {
        var pid :| pid in remaining;
        remaining := remaining - {pid};
        if t[pid].parentPid in selected && pid !in selected {
          ChildDescends(t, seeds, pid);
          selected := selected + {pid};
          changed := true;
        }
      }
    }
    forall pid | Descends(t, seeds, pid) ensures pid in selected {
      var chain :| Lineage(t, seeds, chain) && chain[|chain| - 1] == pid;
      ClosedHoldsLineage(t, seeds, selected, chain, |chain| - 1);
    }
  }

  // ------------------------------------------------------------------ ordering

  predicate Ascending(s: seq<int>) {
    forall i, j :: 0 <= i < j < |s| ==> s[i] < s[j]
  }

  predicate IsLeast(m: int, s: set<int>) {
    m in s && forall x :: x in s ==> m <= x
  }

  lemma {:induction false} LeastExists(s: set<int>, z: int)
    requires z in s
    ensures exists m :: IsLeast(m, s)
    decreases s
  {
    var rest := s - {z};
    assert s == rest + {z};
    if y :| y in rest {
      LeastExists(rest, y);
      var m :| IsLeast(m, rest);
      assert IsLeast(if m < z then m else z, s);
    } else {
      assert IsLeast(z, s);
    }
  }

  method SortPids(s: set<int>) returns (r: seq<int>)
    ensures Ascending(r)
    ensures forall pid :: pid in r <==> pid in s
  {
    r := [];
    var remaining := s;
    while exists pid :: pid in remaining
      invariant Ascending(r)
      invariant forall pid :: pid in s <==> pid in r || pid in remaining
      invariant forall i, y :: 0 <= i < |r| && y in remaining ==> r[i] < y
      decreases remaining
    {
      var some :| some in remaining;
      LeastExists(remaining, some);
      var least :| IsLeast(least, remaining);
      remaining := remaining - {least};
      r := r + [least];
    }
  }

  // ------------------------------------------------------------------- tracker

  class Tracker {
    var tracked: map<Identity, Process>

    constructor ()
      ensures tracked == map[]
    {
      tracked := map[];
    }

    /** `tracked[(item.pid, item.start_time_ticks)] = item` for each item. */
    method Remember(owned: seq<Process>)
      requires forall i, j :: 0 <= i < j < |owned| ==> owned[i].pid < owned[j].pid
      modifies this
      ensures tracked.Keys == old(tracked).Keys + set p | p in owned :: IdentityOf(p)
      ensures forall p :: p in owned ==> tracked[IdentityOf(p)] == p
      ensures forall id :: id in old(tracked) && id !in (set p | p in owned :: IdentityOf(p))
                ==> tracked[id] == old(tracked)[id]
    {
      for i := 0 to |owned|
        invariant tracked.Keys == old(tracked).Keys + set p | p in owned[..i] :: IdentityOf(p)
        invariant forall j :: 0 <= j < i ==>
                    IdentityOf(owned[j]) in tracked && tracked[IdentityOf(owned[j])] == owned[j]
        invariant forall id :: id in old(tracked) && (forall j :: 0 <= j < i ==> IdentityOf(owned[j]) != id)
                    ==> id in tracked && tracked[id] == old(tracked)[id]
      {
        assert owned[..i + 1] == owned[..i] + [owned[i]];
        tracked := tracked[IdentityOf(owned[i]) := owned[i]];
      }
      assert owned[..|owned|] == owned;
    }

    /** `_owned_processes`: exactly the owned processes, in process-ID order, each
        of them remembered by identity; nothing remembered is forgotten. */
    method ObserveOwned(t: Table, stage: Stage) returns (owned: seq<Process>)
      modifies this
      ensures forall i, j :: 0 <= i < j < |owned| ==> owned[i].pid < owned[j].pid
      ensures forall p :: p in owned <==> p.pid in t && t[p.pid] == p && Owned(t, stage, old(tracked), p.pid)
      ensures tracked.Keys == old(tracked).Keys + set p | p in owned :: IdentityOf(p)
      ensures forall p :: p in owned ==> tracked[IdentityOf(p)] == p
      ensures forall id :: id in old(tracked) && id !in (set p | p in owned :: IdentityOf(p))
                ==> tracked[id] == old(tracked)[id]
    {
      var selected := SelectDescendants(t, Seeds(t, stage));
      selected := selected + set pid | pid in t && StillLive(t, tracked, pid);
      var pids := SortPids(selected * t.Keys);
      assert forall i :: 0 <= i < |pids| ==> pids[i] in pids;
      owned := ReadTable(t, pids);
      Remember(owned);
    }
  }

  function ReadTable(t: Table, pids: seq<int>): (r: seq<Process>)
    requires Ascending(pids) && forall i :: 0 <= i < |pids| ==> pids[i] in t
    ensures forall p :: p in r <==> p.pid in pids && t[p.pid] == p
    ensures forall i, j :: 0 <= i < j < |r| ==> r[i].pid < r[j].pid
  {
    var r := seq(|pids|, i requires 0 <= i < |pids| => t[pids[i]]);
    assert forall i :: 0 <= i < |pids| ==> r[i].pid == pids[i];
    r
  }
}
