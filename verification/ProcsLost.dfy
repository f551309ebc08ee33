/** Whether a collective has lost a participant: the job maps, the daemons
    known to have failed, and the nested early-exit search over both. */
module ProcsLost {
  import opened RoutingTree
  import opened Fence

  /** A job's processes by rank: the daemon each is placed on, if any. */
  type Job = seq<Option<nat>>

  datatype World = World(jobs: map<string, Job>, failed: set<nat>)

  /** Placed on a daemon that has failed. */
  predicate OnFailed(w: World, slot: Option<nat>) { slot.Some? && slot.value in w.failed }

  // ---- what it means ----

  /** A process that can no longer be placed counts as gone, once any daemon has failed. */
  predicate Gone(w: World, p: Proc) {
    && w.failed != {} && p.rank.Rank?
    && (p.nspace !in w.jobs
        || p.rank.r >= |w.jobs[p.nspace]|
        || w.jobs[p.nspace][p.rank.r].None?
        || OnFailed(w, w.jobs[p.nspace][p.rank.r]))
  }

  /** A wildcard stands for the namespace, and is only looked at where it is placed. */
  ghost predicate LostOne(w: World, p: Proc) {
    if p.rank.Wildcard? then
      w.failed != {} && (p.nspace !in w.jobs
                         || exists i :: 0 <= i < |w.jobs[p.nspace]| && OnFailed(w, w.jobs[p.nspace][i]))
    else Gone(w, p)
  }

  ghost predicate Lost(w: World, procs: seq<Proc>) {
    exists i :: 0 <= i < |procs| && LostOne(w, procs[i])
  }

  /** What a participant list is asked when a daemon has failed. */
  ghost function Losing(w: World): Sig -> bool { procs => Lost(w, procs) }

  // ---- the code ----

  /** prte_grpcomm_proc_departed. */
  method Departed(w: World, p: Proc) returns (r: bool)
    ensures r <==> Gone(w, p)
  {
    if p.rank.Wildcard? || p.rank.Invalid? { return false; }
    if w.failed == {} { return false; }
    if p.nspace !in w.jobs { return true; }
    var job := w.jobs[p.nspace];
    if p.rank.r >= |job| || job[p.rank.r].None? { return true; }
    r := job[p.rank.r].value in w.failed;
  }

  /** prte_grpcomm_procs_lost. */
  method Search(w: World, procs: seq<Proc>) returns (r: bool)
    ensures r <==> Lost(w, procs)
  {
    if w.failed == {} { return false; }
    for n := 0 to |procs|
      invariant forall i :: 0 <= i < n ==> !LostOne(w, procs[i])
    {
      if !procs[n].rank.Wildcard? {
        var gone := Departed(w, procs[n]);
        if gone { return true; }
      } else {
        if procs[n].nspace !in w.jobs { return true; }
        var job := w.jobs[procs[n].nspace];
        for i := 0 to |job|
          invariant forall j :: 0 <= j < i ==> !OnFailed(w, job[j])
        {
          if job[i].Some? && job[i].value in w.failed {
            assert OnFailed(w, job[i]) && LostOne(w, procs[n]);
            return true;
          }
        }
      }
    }
    r := false;
  }

  // ---- laws ----

  /** A list is lost exactly when one of its parts is. */
  lemma LostConcat(w: World, a: seq<Proc>, b: seq<Proc>)
    ensures Lost(w, a + b) <==> Lost(w, a) || Lost(w, b)
  {
    if i :| 0 <= i < |a| && LostOne(w, a[i]) {
      assert LostOne(w, (a + b)[i]);
    }
    if i :| 0 <= i < |b| && LostOne(w, b[i]) {
      assert LostOne(w, (a + b)[|a| + i]);
    }
    if i :| 0 <= i < |a + b| && LostOne(w, (a + b)[i]) {
      assert if i < |a| then LostOne(w, a[i]) else LostOne(w, b[i - |a|]);
    }
  }

  /** More failures lose no less, for the same job maps. */
  lemma LostMonotone(w: World, more: set<nat>, procs: seq<Proc>)
    requires Lost(w, procs)
    ensures Lost(w.(failed := w.failed + more), procs)
  {
    var w' := w.(failed := w.failed + more);
    var i :| 0 <= i < |procs| && LostOne(w, procs[i]);
    if procs[i].rank.Wildcard? && procs[i].nspace in w.jobs {
      var j :| 0 <= j < |w.jobs[procs[i].nspace]| && OnFailed(w, w.jobs[procs[i].nspace][j]);
      assert OnFailed(w', w'.jobs[procs[i].nspace][j]);
    }
    assert LostOne(w', procs[i]);
  }

  /** For a known job a wildcard is lost exactly when some placed rank has departed. */
  lemma WildcardIsPlacedRank(w: World, ns: string)
    requires ns in w.jobs
    ensures Lost(w, [Proc(ns, Wildcard)])
       <==> exists i :: 0 <= i < |w.jobs[ns]| && w.jobs[ns][i].Some? && Gone(w, Proc(ns, Rank(i)))
  {
    var p := Proc(ns, Wildcard);
    assert Lost(w, [p]) <==> LostOne(w, p) by {
      if LostOne(w, p) { assert LostOne(w, [p][0]); }
    }
    if LostOne(w, p) {
      var i :| 0 <= i < |w.jobs[ns]| && OnFailed(w, w.jobs[ns][i]);
      assert Gone(w, Proc(ns, Rank(i)));
    }
  }

  function Everyone(w: World, ns: string): (procs: seq<Proc>)
    requires ns in w.jobs
    ensures |procs| == |w.jobs[ns]| && forall i :: 0 <= i < |procs| ==> procs[i] == Proc(ns, Rank(i))
  {
    seq(|w.jobs[ns]|, i requires 0 <= i < |w.jobs[ns]| => Proc(ns, Rank(i)))
  }

  /** Writing the namespace out rank by rank says the same as the wildcard,
      unless a rank is not placed: then only the written-out list is lost. */
  lemma WildcardOrWrittenOut(w: World, ns: string)
    requires ns in w.jobs && w.failed != {}
    ensures Lost(w, Everyone(w, ns))
       <==> Lost(w, [Proc(ns, Wildcard)]) || exists i :: 0 <= i < |w.jobs[ns]| && w.jobs[ns][i].None?
  {
    WildcardIsPlacedRank(w, ns);
    var all := Everyone(w, ns);
    if i :| 0 <= i < |all| && LostOne(w, all[i]) {
      assert w.jobs[ns][i].None? || Gone(w, Proc(ns, Rank(i)));
    }
    if i :| 0 <= i < |w.jobs[ns]| && (w.jobs[ns][i].None? || Gone(w, Proc(ns, Rank(i)))) {
      assert LostOne(w, all[i]);
    }
  }
}
