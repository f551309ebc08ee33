/** What a watched request can count on, and the one thing that takes it away. */
module WatcherRuns {
  import opened RoutingTree
  import opened Fence
  import opened PendingTable
  import opened Watchers

  // ---- each step keeps the slots owned ----

  lemma SubmitKeeps(s: World, w: nat, name: Name, cancellable: bool)
    requires Inv(s) && Enabled(s, Submit(w, name, cancellable))
    ensures Inv(Do(true, s, Submit(w, name, cancellable)))
  {
    var s' := Do(true, s, Submit(w, name, cancellable));
    var i := FirstFree(s.table);
    forall v | v in s'.watchers ensures Owns(s'.table, s'.watchers[v]) && Records(s'.table, s'.watchers[v]) {
      if v != w { assert Owns(s.table, s.watchers[v]) && Records(s.table, s.watchers[v]); }
    }
    forall j | 0 <= j < MAX_PENDING ensures Kept(s', j) {
      if j == i { assert KeptBy(s', i, name, w); }
      else {
        assert Kept(s, j);
        if s.table[j].reqid.Some? {
          var v :| KeptBy(s, j, s.table[j].reqid.value, v);
          assert KeptBy(s', j, s.table[j].reqid.value, v);
        }
      }
    }
  }

  /** A watcher that leaves frees its own slot and nobody else's. */
  lemma LeaveKeeps(s: World, w: nat, rc: Status)
    requires Inv(s) && w in s.watchers && Live(s.watchers[w])
    ensures Inv(Moved(s, w, Gone(rc)).(table := DropOf(s.table, s.watchers[w].slot)))
  {
    var s' := Moved(s, w, Gone(rc)).(table := DropOf(s.table, s.watchers[w].slot));
    assert Owns(s.table, s.watchers[w]);
    forall v | v in s'.watchers ensures Owns(s'.table, s'.watchers[v]) && Records(s'.table, s'.watchers[v]) {
      if v != w { assert Owns(s.table, s.watchers[v]) && Records(s.table, s.watchers[v]); }
    }
    forall j | 0 <= j < MAX_PENDING ensures Kept(s', j) {
      assert Kept(s, j);
      if s'.table[j].reqid.Some? {
        var v :| KeptBy(s, j, s.table[j].reqid.value, v);
        assert KeptBy(s', j, s.table[j].reqid.value, v);
      }
    }
  }

  /** A watcher that moves on stays live and keeps its slot. */
  lemma MoveKeeps(s: World, w: nat, phase: Phase)
    requires Inv(s) && w in s.watchers && Live(s.watchers[w]) && !phase.Gone?
    ensures Inv(Moved(s, w, phase))
  {
    var s' := Moved(s, w, phase);
    forall v | v in s'.watchers ensures Owns(s'.table, s'.watchers[v]) && Records(s'.table, s'.watchers[v]) {
      assert Owns(s.table, s.watchers[v]) && Records(s.table, s.watchers[v]);
    }
    StaysKept(s, s');
  }

  /** ... also when the slot is marked on the way. */
  lemma MarkKeeps(events: bool, s: World, w: nat)
    requires Inv(s) && Enabled(s, Mark(w))
    ensures Inv(Do(events, s, Mark(w)))
  {
    var s' := Do(events, s, Mark(w));
    forall v | v in s'.watchers ensures Owns(s'.table, s'.watchers[v]) && Records(s'.table, s'.watchers[v]) {
      assert Owns(s.table, s.watchers[v]) && Records(s.table, s.watchers[v]);
      assert v != w ==> Apart(s.watchers[v], s.watchers[w]);
    }
    StaysKept(s, s');
  }

  /** As long as live watchers stay live and no slot gets a new name. */
  lemma StaysKept(s: World, s': World)
    requires forall j :: 0 <= j < MAX_PENDING ==> Kept(s, j)
    requires forall j :: 0 <= j < MAX_PENDING ==> s'.table[j].reqid == s.table[j].reqid
    requires forall v :: v in s.watchers && Live(s.watchers[v]) ==>
               && v in s'.watchers && Live(s'.watchers[v])
               && s'.watchers[v].slot == s.watchers[v].slot && s'.watchers[v].name == s.watchers[v].name
    ensures forall j :: 0 <= j < MAX_PENDING ==> Kept(s', j)
  {
    forall j | 0 <= j < MAX_PENDING ensures Kept(s', j) {
      assert Kept(s, j);
      if s'.table[j].reqid.Some? {
        var v :| KeptBy(s, j, s.table[j].reqid.value, v);
        assert KeptBy(s', j, s.table[j].reqid.value, v);
      }
    }
  }

  /** An event is recorded in the slot of the watcher that hears it, and no other. */
  lemma HearsRecords(t: Table, x: Watcher, name: Name, st: Status, allocid: Option<string>)
    requires Owns(t, x) && Records(t, x)
    ensures var t', x' := Signalled(t, name, st, allocid), Hears(t, x, name, st, allocid);
            Owns(t', x') && Records(t', x')
  {
    HearsStays(t, x, name, st, allocid);
    SignalKeepsNames(t, name, st, allocid);
  }

  lemma HearsStays(t: Table, x: Watcher, name: Name, st: Status, allocid: Option<string>)
    ensures var x' := Hears(t, x, name, st, allocid);
            Live(x') == Live(x) && x'.slot == x.slot && x'.name == x.name
  {
  }

  lemma SignalKeepsNames(t: Table, name: Name, st: Status, allocid: Option<string>)
    ensures forall j :: 0 <= j < MAX_PENDING ==> Signalled(t, name, st, allocid)[j].reqid == t[j].reqid
  {
  }

  lemma EventKeeps(s: World, name: Name, st: Status, allocid: Option<string>)
    requires Inv(s)
    ensures Inv(Do(true, s, Event(name, st, allocid)))
  {
    var s' := Do(true, s, Event(name, st, allocid));
    EventStays(s, name, st, allocid);
    forall v | v in s'.watchers ensures Owns(s'.table, s'.watchers[v]) && Records(s'.table, s'.watchers[v]) {
      HearsRecords(s.table, s.watchers[v], name, st, allocid);
    }
  }

  lemma EventStays(s: World, name: Name, st: Status, allocid: Option<string>)
    requires Inv(s)
    ensures var s' := Do(true, s, Event(name, st, allocid));
            && (forall v, w :: v in s'.watchers && w in s'.watchers && v != w ==> Apart(s'.watchers[v], s'.watchers[w]))
            && (forall j :: 0 <= j < MAX_PENDING ==> Kept(s', j))
  {
    var s' := Do(true, s, Event(name, st, allocid));
    forall v | v in s.watchers
      ensures Live(s'.watchers[v]) == Live(s.watchers[v]) && s'.watchers[v].slot == s.watchers[v].slot
      ensures s'.watchers[v].name == s.watchers[v].name
    {
      HearsStays(s.table, s.watchers[v], name, st, allocid);
    }
    SignalKeepsNames(s.table, name, st, allocid);
    forall v, w | v in s'.watchers && w in s'.watchers && v != w ensures Apart(s'.watchers[v], s'.watchers[w]) {
      assert Apart(s.watchers[v], s.watchers[w]);
    }
    StaysKept(s, s');
  }

  /** Forgetting a name nobody live is counting on touches nothing. */
  lemma ForgetNothing(s: World, name: Name)
    requires Inv(s) && !Strikes(s, Forget(name))
    ensures Forgotten(s.table, name) == s.table
  {
    forall i | 0 <= i < MAX_PENDING ensures s.table[i].reqid != Some(name) { assert Kept(s, i); }
  }

  lemma DoKeeps(events: bool, s: World, step: Step)
    requires Inv(s) && Enabled(s, step) && !Strikes(s, step)
    ensures Inv(Do(events, s, step))
  {
    match step
    case Submit(w, name, cancellable) => SubmitKeeps(s, w, name, cancellable);
    case Refuse(w) => LeaveKeeps(s, w, NOT_ACCEPTED);
    case PhaseOne(w, st) => MoveKeeps(s, w, if st == IN_PROGRESS then Acting else Finishing(st));
    case Mark(w) => MarkKeeps(events, s, w);
    case Event(name, st, allocid) => EventKeeps(s, name, st, allocid);
    case WaitEnd(w) =>
      var x := s.table[s.watchers[w].slot.value];
      MoveKeeps(s, w, Finishing(if x.done then x.status else TIMED_OUT));
    case Finish(w) => LeaveKeeps(s, w, s.watchers[w].phase.rc);
    case Forget(name) => ForgetNothing(s, name);
  }

  // ---- whole runs ----

  ghost predicate StrikeAt(events: bool, steps: seq<Step>, n: nat)
    requires n < |steps|
  {
    Strikes(Exec(events, steps[..n]), steps[n])
  }

  ghost predicate NoStrikes(events: bool, steps: seq<Step>) {
    forall n :: 0 <= n < |steps| ==> !StrikeAt(events, steps, n)
  }

  lemma NoStrikesPrefix(events: bool, steps: seq<Step>, n: nat)
    requires NoStrikes(events, steps) && n <= |steps|
    ensures NoStrikes(events, steps[..n])
  {
    forall i | 0 <= i < n ensures !StrikeAt(events, steps[..n], i) {
      assert steps[..n][..i] == steps[..i];
      assert !StrikeAt(events, steps, i);
    }
  }

  lemma {:induction false} ExecKeeps(events: bool, steps: seq<Step>)
    requires NoStrikes(events, steps)
    ensures Inv(Exec(events, steps))
  {
    if steps != [] {
      var n := |steps| - 1;
      NoStrikesPrefix(events, steps, n);
      ExecKeeps(events, steps[..n]);
      assert !StrikeAt(events, steps, n);
      var s := Exec(events, steps[..n]);
      if Enabled(s, steps[n]) { DoKeeps(events, s, steps[n]); }
    }
  }

  ghost predicate OwnedThroughout(events: bool, steps: seq<Step>) {
    forall n :: 0 <= n <= |steps| ==> Owned(Exec(events, steps[..n]))
  }

  /** A live watcher's slot names its own request throughout a run if and only
      if no cancel forgets the name of a request still being watched. */
  lemma OwnedIffNoStrike(events: bool, steps: seq<Step>)
    ensures OwnedThroughout(events, steps) <==> NoStrikes(events, steps)
  {
    if NoStrikes(events, steps) {
      forall n | 0 <= n <= |steps| ensures Owned(Exec(events, steps[..n])) {
        NoStrikesPrefix(events, steps, n);
        ExecKeeps(events, steps[..n]);
      }
    } else {
      var n :| 0 <= n < |steps| && StrikeAt(events, steps, n);
      var s := Exec(events, steps[..n]);
      assert steps[..n + 1][..n] == steps[..n];
      StrikeDisowns(events, s, steps[n]);
      assert !Owned(Exec(events, steps[..n + 1])) || !Owned(s);
    }
  }

  lemma StrikeDisowns(events: bool, s: World, step: Step)
    requires Strikes(s, step)
    ensures Owned(s) ==> !Owned(Do(events, s, step))
  {
    var w :| w in s.watchers && Live(s.watchers[w]) && s.watchers[w].slot.Some? && s.watchers[w].name == step.name;
    if Owned(s) {
      assert Owns(s.table, s.watchers[w]);
      assert !Owns(Do(events, s, step).table, s.watchers[w]);
    }
  }

  /** The event's status, or a timeout if there was none. */
  function Ending(event: Option<Status>): Status { if event.Some? then event.value else TIMED_OUT }

  /** Whichever order the callback and the event came in, a watcher waiting for
      the DVM to resize ends with the status of the last event it heard since it
      claimed its slot, and with a timeout only if it heard none. */
  lemma HeardDecides(events: bool, steps: seq<Step>, w: nat)
    requires NoStrikes(events, steps)
    requires var s := Exec(events, steps); w in s.watchers && s.watchers[w].phase.Resizing?
    ensures var s := Exec(events, steps);
            var x := s.watchers[w];
            && Enabled(s, WaitEnd(w))
            && Do(events, s, WaitEnd(w)).watchers[w].phase == Finishing(Ending(x.heard))
  {
    ExecKeeps(events, steps);
    ResizingHasSlot(events, steps, w);
    var s := Exec(events, steps);
    assert Owns(s.table, s.watchers[w]) && Records(s.table, s.watchers[w]);
  }

  lemma {:induction false} ResizingHasSlot(events: bool, steps: seq<Step>, w: nat)
    requires var s := Exec(events, steps); w in s.watchers && s.watchers[w].phase.Resizing?
    ensures Exec(events, steps).watchers[w].slot.Some?
  {
    var s := Exec(events, steps[..|steps| - 1]);
    if w in s.watchers && s.watchers[w].phase.Resizing? { ResizingHasSlot(events, steps[..|steps| - 1], w); }
    if Enabled(s, steps[|steps| - 1]) { ResizesWithSlot(events, s, steps[|steps| - 1], w); }
  }

  lemma ResizesWithSlot(events: bool, s: World, step: Step, w: nat)
    requires Enabled(s, step) && (w in s.watchers && s.watchers[w].phase.Resizing? ==> s.watchers[w].slot.Some?)
    requires var s' := Do(events, s, step); w in s'.watchers && s'.watchers[w].phase.Resizing?
    ensures Do(events, s, step).watchers[w].slot.Some?
  {
  }

  /** In every run without a strike a live watcher's slot can be cancelled exactly
      if it was submitted so and has not been marked granted, and shows the last
      allocation an event named to it. */
  lemma SlotShows(events: bool, steps: seq<Step>, w: nat)
    requires NoStrikes(events, steps)
    requires var s := Exec(events, steps); w in s.watchers && Live(s.watchers[w]) && s.watchers[w].slot.Some?
    ensures var s := Exec(events, steps);
            var x := s.watchers[w];
            && x.slot.value < MAX_PENDING
            && (Cancellable(s.table[x.slot.value]) <==> x.cancellable && !x.granted)
            && s.table[x.slot.value].allocid == x.alloc
  {
    ExecKeeps(events, steps);
    var s := Exec(events, steps);
    assert Owns(s.table, s.watchers[w]) && Records(s.table, s.watchers[w]);
  }

  // ---- whether the event it heard is the event that named it ----

  /** An event reaches a watcher's slot exactly if no lower slot has its name. */
  lemma EventReaches(s: World, w: nat, st: Status, allocid: Option<string>)
    requires Inv(s) && w in s.watchers && Live(s.watchers[w]) && s.watchers[w].slot.Some?
    ensures var x := s.watchers[w];
            var i := x.slot.value;
            var t := Do(true, s, Event(x.name, st, allocid)).table;
            && i < MAX_PENDING
            && t[i] == (if exists j :: 0 <= j < i && s.table[j].reqid == Some(x.name) then s.table[i]
                        else Hit(s.table[i], st, allocid))
  {
    assert Owns(s.table, s.watchers[w]);
  }

  /** Step `n` is an event naming watcher `w` that another slot gets instead. */
  predicate MissAt(events: bool, steps: seq<Step>, n: nat, w: nat)
    requires n < |steps|
  {
    var s := Exec(events, steps[..n]);
    steps[n].Event? && w in s.watchers && Misses(s.table, s.watchers[w], steps[n].name)
  }

  ghost predicate NeverMisses(events: bool, steps: seq<Step>, w: nat) {
    forall n :: 0 <= n < |steps| ==> !MissAt(events, steps, n, w)
  }

  lemma {:induction false} HeardAll(events: bool, steps: seq<Step>, w: nat)
    requires NeverMisses(events, steps, w) && w in Exec(events, steps).watchers
    ensures Exec(events, steps).watchers[w].heard == Exec(events, steps).watchers[w].event
  {
    var n := |steps| - 1;
    var s := Exec(events, steps[..n]);
    if w in s.watchers {
      forall i | 0 <= i < n ensures !MissAt(events, steps[..n], i, w) {
        assert steps[..n][..i] == steps[..i];
        assert !MissAt(events, steps, i, w);
      }
      HeardAll(events, steps[..n], w);
      assert !MissAt(events, steps, n, w);
    }
  }

  /** So an event is never lost, whichever order things happen in, unless it
      goes to a lower slot of the same name. */
  lemma EventNeverLost(events: bool, steps: seq<Step>, w: nat)
    requires NoStrikes(events, steps) && NeverMisses(events, steps, w)
    requires var s := Exec(events, steps); w in s.watchers && s.watchers[w].phase.Resizing?
    ensures var s := Exec(events, steps);
            var x := s.watchers[w];
            && Enabled(s, WaitEnd(w))
            && Do(events, s, WaitEnd(w)).watchers[w].phase == Finishing(Ending(x.event))
  {
    HeardDecides(events, steps, w);
    HeardAll(events, steps, w);
  }

  // ---- names that differ ----

  predicate Differ(x: Watcher, y: Watcher) { Live(x) && Live(y) ==> x.name != y.name }

  predicate Distinct(s: World) {
    forall v, w :: v in s.watchers && w in s.watchers && v != w ==> Differ(s.watchers[v], s.watchers[w])
  }

  predicate HeardIt(x: Watcher) { Live(x) && x.slot.Some? ==> x.heard == x.event }

  predicate AllHeard(s: World) { forall w :: w in s.watchers ==> HeardIt(s.watchers[w]) }

  /** Then no other slot carries a live watcher's name. */
  lemma OwnSlot(s: World, w: nat)
    requires Inv(s) && Distinct(s) && w in s.watchers && Live(s.watchers[w]) && s.watchers[w].slot.Some?
    ensures FirstNamed(s.table, s.watchers[w].name) == s.watchers[w].slot.value
  {
    var x := s.watchers[w];
    assert Owns(s.table, x);
    var i := FirstNamed(s.table, x.name);
    assert Kept(s, i);
    var v :| KeptBy(s, i, x.name, v);
    assert v != w ==> Differ(s.watchers[v], x);
  }

  lemma HeardKeeps(events: bool, s: World, step: Step, v: nat)
    requires Inv(s) && Distinct(s) && AllHeard(s) && Enabled(s, step) && v in Do(events, s, step).watchers
    ensures HeardIt(Do(events, s, step).watchers[v])
  {
    if v in s.watchers {
      assert HeardIt(s.watchers[v]);
      if Live(s.watchers[v]) && s.watchers[v].slot.Some? { OwnSlot(s, v); }
    }
  }

  lemma DistinctKeeps(events: bool, s: World, step: Step)
    requires Inv(s) && Distinct(s) && AllHeard(s) && Enabled(s, step)
    requires step.Submit? ==> Unused(s, step.name)
    ensures Distinct(Do(events, s, step)) && AllHeard(Do(events, s, step))
  {
    var s' := Do(events, s, step);
    forall v | v in s'.watchers ensures HeardIt(s'.watchers[v]) { HeardKeeps(events, s, step, v); }
    forall v, w | v in s'.watchers && w in s'.watchers && v != w ensures Differ(s'.watchers[v], s'.watchers[w]) {
      if v in s.watchers && w in s.watchers { assert Differ(s.watchers[v], s.watchers[w]); }
    }
  }

  /** Every request is given a name no live one has. */
  ghost predicate FreshNames(events: bool, steps: seq<Step>) {
    forall n :: 0 <= n < |steps| ==> FreshAt(events, steps, n)
  }

  predicate FreshAt(events: bool, steps: seq<Step>, n: nat)
    requires n < |steps|
  {
    steps[n].Submit? ==> Unused(Exec(events, steps[..n]), steps[n].name)
  }

  lemma {:induction false} DistinctThroughout(events: bool, steps: seq<Step>)
    requires NoStrikes(events, steps) && FreshNames(events, steps)
    ensures Distinct(Exec(events, steps)) && AllHeard(Exec(events, steps))
  {
    if steps != [] {
      var n := |steps| - 1;
      NoStrikesPrefix(events, steps, n);
      forall i | 0 <= i < n ensures FreshAt(events, steps[..n], i) {
        assert steps[..n][..i] == steps[..i];
        assert FreshAt(events, steps, i);
      }
      DistinctThroughout(events, steps[..n]);
      ExecKeeps(events, steps[..n]);
      assert FreshAt(events, steps, n);
      var s := Exec(events, steps[..n]);
      if Enabled(s, steps[n]) { DistinctKeeps(events, s, steps[n]); }
    }
  }

  /** Where live requests have different names no event is lost at all. */
  lemma FreshNamesLoseNothing(events: bool, steps: seq<Step>, w: nat)
    requires NoStrikes(events, steps) && FreshNames(events, steps)
    requires var s := Exec(events, steps); w in s.watchers && s.watchers[w].phase.Resizing?
    ensures var s := Exec(events, steps);
            var x := s.watchers[w];
            && Enabled(s, WaitEnd(w))
            && Do(events, s, WaitEnd(w)).watchers[w].phase == Finishing(Ending(x.event))
  {
    HeardDecides(events, steps, w);
    DistinctThroughout(events, steps);
    ResizingHasSlot(events, steps, w);
    assert HeardIt(Exec(events, steps).watchers[w]);
  }
}
