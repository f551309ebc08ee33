/** Requests being watched: a slot claimed before submitting, the phase-one
    callback and the phase-two event in either order, timeouts, and a cancel
    that may forget a name at any time. Each step is one locked section. */
module Watchers {
  import opened RoutingTree
  import opened Fence
  import opened PendingTable

  const IN_PROGRESS: Status := Error(-156)

  datatype Phase =
    | Submitted               // waiting for phase one
    | Acting                  // phase one said the scheduler has acted
    | Resizing                // in pending_wait
    | Finishing(rc: Status)   // the outcome is known, the slot not yet dropped
    | Gone(rc: Status)

  /** All but the first three is history since the slot was claimed: the last
      phase-two status that named this request; the last one for which its slot
      was the first of that name, and the last allocation one of those named;
      whether it was to be cancellable, and whether it was marked granted. */
  datatype Watcher = Watcher(name: Name, slot: Option<nat>, phase: Phase, event: Option<Status>,
                             heard: Option<Status>, alloc: string, cancellable: bool, granted: bool)

  datatype World = World(table: Table, watchers: map<nat, Watcher>)

  datatype Step =
    | Submit(w: nat, name: Name, cancellable: bool)
    | Refuse(w: nat)                    // the request call failed at once
    | PhaseOne(w: nat, st: Status)      // its callback, or giving up on it
    | Mark(w: nat)
    | Event(name: Name, st: Status, allocid: Option<string>)
    | WaitEnd(w: nat)                   // woken, or past the deadline
    | Finish(w: nat)
    | Forget(name: Name)                // a cancel was accepted

  predicate Live(x: Watcher) { !x.phase.Gone? }

  const START := World(EMPTY_TABLE, map[])

  /** No live request has this name. Nothing in the program asks for that: a
      name the user gives is taken as it is. */
  predicate Unused(s: World, name: Name) {
    forall w :: w in s.watchers && Live(s.watchers[w]) ==> s.watchers[w].name != name
  }

  predicate Enabled(s: World, step: Step) {
    match step
    case Submit(w, _, _) => w !in s.watchers
    case Refuse(w) => w in s.watchers && s.watchers[w].phase.Submitted?
    case PhaseOne(w, _) => w in s.watchers && s.watchers[w].phase.Submitted?
    case Mark(w) => w in s.watchers && s.watchers[w].phase.Acting?
    case WaitEnd(w) => w in s.watchers && s.watchers[w].phase.Resizing? && InTable(s.watchers[w].slot)
    case Finish(w) => w in s.watchers && s.watchers[w].phase.Finishing?
    case Event(_, _, _) | Forget(_) => true
  }

  predicate InTable(slot: Option<nat>) { slot.Some? && slot.value < MAX_PENDING }

  function Moved(s: World, w: nat, phase: Phase): World
    requires w in s.watchers
  {
    s.(watchers := s.watchers[w := s.watchers[w].(phase := phase)])
  }

  function MarkedMoved(s: World, w: nat, phase: Phase): World
    requires w in s.watchers
  {
    s.(watchers := s.watchers[w := s.watchers[w].(phase := phase, granted := true)])
  }

  function DropOf(t: Table, slot: Option<nat>): Table { if InTable(slot) then Dropped(t, slot.value) else t }

  /** An event of that name goes to some other slot first. */
  predicate Misses(t: Table, x: Watcher, name: Name) {
    Live(x) && x.name == name && x.slot != Some(FirstNamed(t, name))
  }

  function Hears(t: Table, x: Watcher, name: Name, st: Status, allocid: Option<string>): Watcher {
    if !Live(x) || x.name != name then x
    else if Misses(t, x, name) then x.(event := Some(st))
    else x.(event := Some(st), heard := Some(st), alloc := if allocid.Some? then allocid.value else x.alloc)
  }

  function Heard(s: World, name: Name, st: Status, allocid: Option<string>): map<nat, Watcher> {
    map w | w in s.watchers :: Hears(s.table, s.watchers[w], name, st, allocid)
  }

  /** `events`: could the phase-two handler be registered at all? */
  function Do(events: bool, s: World, step: Step): World
    requires Enabled(s, step)
  {
    match step
    case Submit(w, name, cancellable) =>
      var i := FirstFree(s.table);
      World(Registered(s.table, name, cancellable),
            s.watchers[w := Watcher(name, if i < MAX_PENDING then Some(i) else None, Submitted, None, None,
                                 "", cancellable, false)])
    case Refuse(w) => Moved(s, w, Gone(NOT_ACCEPTED)).(table := DropOf(s.table, s.watchers[w].slot))
    case PhaseOne(w, st) => Moved(s, w, if st == IN_PROGRESS then Acting else Finishing(st))
    case Mark(w) =>
      var slot := s.watchers[w].slot;
      MarkedMoved(s, w, if slot.Some? && events then Resizing else Finishing(IN_PROGRESS))
        .(table := if InTable(slot) then Granted(s.table, slot.value) else s.table)
    case Event(name, st, allocid) => World(Signalled(s.table, name, st, allocid), Heard(s, name, st, allocid))
    case WaitEnd(w) =>
      var x := s.table[s.watchers[w].slot.value];
      Moved(s, w, Finishing(if x.done then x.status else TIMED_OUT))
    case Finish(w) => Moved(s, w, Gone(s.watchers[w].phase.rc)).(table := DropOf(s.table, s.watchers[w].slot))
    case Forget(name) => s.(table := Forgotten(s.table, name))
  }

  const NOT_ACCEPTED: Status := Error(-1)

  function Exec(events: bool, steps: seq<Step>): World {
    if steps == [] then START
    else
      var s := Exec(events, steps[..|steps| - 1]);
      if Enabled(s, steps[|steps| - 1]) then Do(events, s, steps[|steps| - 1]) else s
  }

  // ---- who owns what ----

  /** A live watcher's slot names that watcher's own request. */
  predicate Owns(t: Table, x: Watcher) {
    Live(x) && x.slot.Some? ==> x.slot.value < MAX_PENDING && t[x.slot.value].reqid == Some(x.name)
  }

  predicate Owned(s: World) { forall w :: w in s.watchers ==> Owns(s.table, s.watchers[w]) }

  /** ... and has the event it heard recorded there. */
  predicate Records(t: Table, x: Watcher) {
    Live(x) && InTable(x.slot) ==>
      && (t[x.slot.value].done <==> x.heard.Some?)
      && (x.heard.Some? ==> t[x.slot.value].status == x.heard.value)
      && t[x.slot.value].allocid == x.alloc && t[x.slot.value].cancellable == x.cancellable
      && (t[x.slot.value].submitted <==> !x.granted)
  }

  ghost predicate Kept(s: World, i: nat)
    requires i < MAX_PENDING
  {
    s.table[i].reqid.Some? ==> exists w :: KeptBy(s, i, s.table[i].reqid.value, w)
  }

  /** The live watcher a used slot belongs to. */
  predicate KeptBy(s: World, i: nat, name: Name, w: nat) {
    w in s.watchers && Live(s.watchers[w]) && s.watchers[w].slot == Some(i) && s.watchers[w].name == name
  }

  /** Live watchers do not share a slot. */
  predicate Apart(x: Watcher, y: Watcher) { Live(x) && Live(y) && x.slot.Some? ==> x.slot != y.slot }

  ghost predicate Inv(s: World) {
    && (forall v, w :: v in s.watchers && w in s.watchers && v != w ==> Apart(s.watchers[v], s.watchers[w]))
    && Owned(s)
    && (forall w :: w in s.watchers ==> Records(s.table, s.watchers[w]))
    && (forall i :: 0 <= i < MAX_PENDING ==> Kept(s, i))
  }

  /** A cancel's forget frees a slot a live watcher still counts on. */
  predicate Strikes(s: World, step: Step) {
    step.Forget? && exists w ::
      w in s.watchers && Live(s.watchers[w]) && s.watchers[w].slot.Some? && s.watchers[w].name == step.name
  }
}
