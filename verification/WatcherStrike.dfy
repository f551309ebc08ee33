/** The two runs in which a request loses its event: to a cancel of another
    request, and to another request of the same name.

    In the first, a cancel is accepted and forgets request "a" while its watcher is still
    live. Request "b" claims the slot. The first watcher then finishes and drops
    the slot it remembers, which is now the second one's. In the second, two
    requests are both called "a", and the event goes to the lower slot. */
module WatcherStrike {
  import opened RoutingTree
  import opened Fence
  import opened PendingTable
  import opened Watchers

  const WITHDRAWN: Status := Error(-180)

  function Table0(x: Slot): Table { EMPTY_TABLE[0 := x] }

  function Two(x: Slot, a: Watcher, b: Watcher): World { World(Table0(x), map[1 := a, 2 := b]) }

  const A := Watcher("a", Some(0), Submitted, None, None, "", true, false)
  const B := Watcher("b", Some(0), Submitted, None, None, "", true, false)

  lemma Next(steps: seq<Step>, step: Step)
    requires Enabled(Exec(true, steps), step)
    ensures Exec(true, steps + [step]) == Do(true, Exec(true, steps), step)
  {
    assert (steps + [step])[..|steps|] == steps;
  }

  lemma FirstIsFree(x: Slot)
    requires x.reqid == None
    ensures FirstFree(Table0(x)) == 0
  {
  }

  /** "a" is submitted and forgotten; "b" gets its slot. */
  lemma Reused() returns (steps: seq<Step>)
    ensures Exec(true, steps) == Two(Claimed("b", true), A, B)
  {
    steps := [];
    Next([], Submit(1, "a", true));
    steps := steps + [Submit(1, "a", true)];
    assert Exec(true, steps) == World(Table0(Claimed("a", true)), map[1 := A]);
    Next(steps, Forget("a"));
    steps := steps + [Forget("a")];
    var x := Claimed("a", true).(reqid := None);
    assert Exec(true, steps).table == Table0(x);
    FirstIsFree(x);
    Next(steps, Submit(2, "b", true));
    steps := steps + [Submit(2, "b", true)];
    assert Table0(x)[0 := Claimed("b", true)] == Table0(Claimed("b", true));
    assert Exec(true, steps).watchers == map[1 := A, 2 := B];
  }

  /** The first watcher leaves, and with it the second one's slot. */
  lemma DroppedTwice() returns (steps: seq<Step>)
    ensures Exec(true, steps) == Two(Claimed("b", true).(reqid := None), A.(phase := Gone(WITHDRAWN)), B)
  {
    steps := Reused();
    Next(steps, PhaseOne(1, WITHDRAWN));
    steps := steps + [PhaseOne(1, WITHDRAWN)];
    assert Exec(true, steps) == Two(Claimed("b", true), A.(phase := Finishing(WITHDRAWN)), B);
    Next(steps, Watchers.Step.Finish(1));
    steps := steps + [Watchers.Step.Finish(1)];
    var s := Exec(true, steps);
    assert s.watchers == map[1 := A.(phase := Gone(WITHDRAWN)), 2 := B];
    assert s.table == Table0(Claimed("b", true).(reqid := None));
  }

  /** "b" is granted, and waits for its event. */
  lemma GrantedSlotless() returns (steps: seq<Step>)
    ensures var s := Exec(true, steps);
            && 2 in s.watchers && s.watchers[2] == B.(phase := Resizing, granted := true)
            && s.table == Table0(Claimed("b", true).(reqid := None, submitted := false))
  {
    steps := DroppedTwice();
    Next(steps, PhaseOne(2, IN_PROGRESS));
    steps := steps + [PhaseOne(2, IN_PROGRESS)];
    Next(steps, Mark(2));
    steps := steps + [Mark(2)];
  }

  /** The event for "b" arrives in good time, and "b" still times out. */
  lemma CancelLosesAnothersEvent() returns (steps: seq<Step>)
    ensures var s := Exec(true, steps);
            && 2 in s.watchers && s.watchers[2].event == Some(Success)
            && s.watchers[2].phase == Finishing(TIMED_OUT)
  {
    steps := GrantedSlotless();
    var s := Exec(true, steps);
    Next(steps, Event("b", Success, None));
    steps := steps + [Event("b", Success, None)];
    assert FirstNamed(s.table, "b") == MAX_PENDING;
    assert Exec(true, steps).table == s.table;
    Next(steps, WaitEnd(2));
    steps := steps + [WaitEnd(2)];
  }

  /** Two requests of one name, in the first two slots; the second is waiting. */
  lemma Namesakes() returns (steps: seq<Step>)
    ensures Exec(true, steps).table == Table0(Claimed("a", true))[1 := Claimed("a", true).(submitted := false)]
    ensures Exec(true, steps).watchers == map[1 := A, 2 := A.(slot := Some(1), phase := Resizing, granted := true)]
    ensures forall step :: step in steps ==> !step.Forget?
  {
    steps := [];
    Next([], Submit(1, "a", true));
    steps := steps + [Submit(1, "a", true)];
    assert Exec(true, steps) == World(Table0(Claimed("a", true)), map[1 := A]);
    assert FirstFree(Table0(Claimed("a", true))) == 1;
    Next(steps, Submit(2, "a", true));
    steps := steps + [Submit(2, "a", true)];
    Next(steps, PhaseOne(2, IN_PROGRESS));
    steps := steps + [PhaseOne(2, IN_PROGRESS)];
    Next(steps, Mark(2));
    steps := steps + [Mark(2)];
  }

  /** The event for "a" arrives in good time, no cancel interferes, and the
      second "a" still times out. */
  lemma NamesakeLosesEvent() returns (steps: seq<Step>)
    ensures var s := Exec(true, steps);
            && 2 in s.watchers && s.watchers[2].event == Some(Success)
            && s.watchers[2].phase == Finishing(TIMED_OUT)
    ensures forall step :: step in steps ==> !step.Forget?
  {
    steps := Namesakes();
    var s := Exec(true, steps);
    assert FirstNamed(s.table, "a") == 0;
    Next(steps, Event("a", Success, None));
    steps := steps + [Event("a", Success, None)];
    Next(steps, WaitEnd(2));
    steps := steps + [WaitEnd(2)];
  }
}
