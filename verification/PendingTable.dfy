/** The table of outstanding requests: eight slots, claimed first-fit by name,
    shared by the command reader, the watchers and the event handler. Every
    method is one section under the table's lock. */
module PendingTable {
  import opened RoutingTree
  import opened Fence

  const MAX_PENDING: nat := 8

  type Name = string

  /** A free slot keeps whatever else its last user left in it. */
  datatype Slot = Slot(reqid: Option<Name>, submitted: bool, cancellable: bool, done: bool,
                       status: Status, allocid: string)

  type Table = t: seq<Slot> | |t| == MAX_PENDING witness EMPTY_TABLE

  const VACANT := Slot(None, false, false, false, Success, "")
  const EMPTY_TABLE: seq<Slot> := [VACANT, VACANT, VACANT, VACANT, VACANT, VACANT, VACANT, VACANT]

  // ---- what each section does ----

  function FirstFree(t: seq<Slot>): (i: nat)
    ensures i <= |t|
    ensures i < |t| ==> t[i].reqid == None
    ensures forall j :: 0 <= j < i ==> t[j].reqid != None
  {
    if t == [] || t[0].reqid == None then 0
    else
      var i := 1 + FirstFree(t[1..]);
      assert forall j :: 1 <= j < |t| ==> t[j] == t[1..][j - 1];
      i
  }

  function FirstNamed(t: seq<Slot>, name: Name): (i: nat)
    ensures i <= |t|
    ensures i < |t| ==> t[i].reqid == Some(name)
    ensures forall j :: 0 <= j < i ==> t[j].reqid != Some(name)
  {
    if t == [] || t[0].reqid == Some(name) then 0
    else
      var i := 1 + FirstNamed(t[1..], name);
      assert forall j :: 1 <= j < |t| ==> t[j] == t[1..][j - 1];
      i
  }

  function Claimed(name: Name, cancellable: bool): Slot {
    Slot(Some(name), true, cancellable, false, Success, "")
  }

  function Registered(t: Table, name: Name, cancellable: bool): Table {
    var i := FirstFree(t);
    if i < |t| then t[i := Claimed(name, cancellable)] else t
  }

  function Granted(t: Table, i: nat): Table
    requires i < MAX_PENDING
  {
    t[i := t[i].(submitted := false)]
  }

  function Dropped(t: Table, i: nat): Table
    requires i < MAX_PENDING
  {
    t[i := t[i].(reqid := None)]
  }

  function Forgotten(t: Table, name: Name): (r: Table)
    ensures forall i :: 0 <= i < |t| ==> r[i] == if t[i].reqid == Some(name) then t[i].(reqid := None) else t[i]
  {
    seq(|t|, i requires 0 <= i < |t| => if t[i].reqid == Some(name) then t[i].(reqid := None) else t[i])
  }

  function Hit(s: Slot, st: Status, allocid: Option<string>): Slot {
    s.(done := true, status := st, allocid := if allocid.Some? then allocid.value else s.allocid)
  }

  function Signalled(t: Table, name: Name, st: Status, allocid: Option<string>): Table {
    var i := FirstNamed(t, name);
    if i < |t| then t[i := Hit(t[i], st, allocid)] else t
  }

  predicate Cancellable(s: Slot) { s.reqid.Some? && s.submitted && s.cancellable }

  // ---- the code ----

  class Pending {
    const slots: array<Slot>

    ghost predicate Valid()
      reads this
    {
      slots.Length == MAX_PENDING
    }

    constructor ()
      ensures Valid() && fresh(slots) && slots[..] == EMPTY_TABLE
    {
      slots := new Slot[MAX_PENDING](i => VACANT);
    }

    /** pending_register. */
    method Register(name: Name, cancellable: bool) returns (slot: Option<nat>)
      requires Valid()
      modifies slots
      ensures slots[..] == Registered(old(slots[..]), name, cancellable)
      ensures slot == (if FirstFree(old(slots[..])) < MAX_PENDING then Some(FirstFree(old(slots[..]))) else None)
    {
      slot := None;
      for i := 0 to MAX_PENDING
        invariant slots[..] == old(slots[..])
        invariant FirstFree(slots[..]) == i + FirstFree(slots[i..])
      {
        if slots[i].reqid == None {
          slots[i] := Claimed(name, cancellable);
          return Some(i);
        }
        assert slots[i..][1..] == slots[i + 1..];
      }
    }

    /** pending_mark_granted; a request with no slot has nothing to mark. */
    method MarkGranted(slot: Option<nat>)
      requires Valid() && (slot.Some? ==> slot.value < MAX_PENDING)
      modifies slots
      ensures slot.Some? ==> slots[..] == Granted(old(slots[..]), slot.value) && !Cancellable(slots[slot.value])
      ensures forall i :: 0 <= i < MAX_PENDING && slot != Some(i) ==> slots[i] == old(slots[i])
      ensures forall name :: FirstNamed(slots[..], name) == FirstNamed(old(slots[..]), name)
    {
      if slot.None? { return; }
      slots[slot.value] := slots[slot.value].(submitted := false);
    }

    /** pending_is_cancellable: an unknown name is told apart from one too late. */
    method IsCancellable(name: Name) returns (yes: bool, known: bool)
      requires Valid()
      ensures known <==> FirstNamed(slots[..], name) < MAX_PENDING
      ensures yes <==> known && Cancellable(slots[FirstNamed(slots[..], name)])
    {
      for i := 0 to MAX_PENDING
        invariant FirstNamed(slots[..], name) == i + FirstNamed(slots[i..], name)
      {
        if slots[i].reqid == Some(name) { return slots[i].cancellable && slots[i].submitted, true; }
        assert slots[i..][1..] == slots[i + 1..];
      }
      return false, false;
    }

    /** pending_sole_cancellable: a name only if exactly one request is cancellable. */
    method SoleCancellable() returns (name: Option<Name>)
      requires Valid()
      ensures name.Some? <==> exists i :: 0 <= i < MAX_PENDING && Cancellable(slots[i])
                                          && forall j :: 0 <= j < MAX_PENDING && Cancellable(slots[j]) ==> j == i
      ensures name.Some? ==> exists i :: 0 <= i < MAX_PENDING && Cancellable(slots[i]) && slots[i].reqid == name
    {
      var found: Option<nat> := None;
      for i := 0 to MAX_PENDING
        invariant found.Some? ==> found.value < i && Cancellable(slots[found.value])
        invariant forall j :: 0 <= j < i && Cancellable(slots[j]) ==> found == Some(j)
      {
        if slots[i].reqid.Some? && slots[i].submitted && slots[i].cancellable {
          if found.Some? {
            assert Cancellable(slots[i]) && Cancellable(slots[found.value]);
            return None;
          }
          found := Some(i);
        }
      }
      if found.None? { return None; }
      name := slots[found.value].reqid;
    }

    /** pending_drop. */
    method Drop(slot: Option<nat>)
      requires Valid() && (slot.Some? ==> slot.value < MAX_PENDING)
      modifies slots
      ensures slot.Some? ==> slots[..] == Dropped(old(slots[..]), slot.value) && FirstFree(slots[..]) <= slot.value
      ensures forall i :: 0 <= i < MAX_PENDING && slot != Some(i) ==> slots[i] == old(slots[i])
    {
      if slot.None? { return; }
      slots[slot.value] := slots[slot.value].(reqid := None);
    }

    /** pending_forget_reqid: every slot of that name. */
    method Forget(name: Name)
      requires Valid()
      modifies slots
      ensures slots[..] == Forgotten(old(slots[..]), name)
    {
      for i := 0 to MAX_PENDING
        invariant slots[..i] == Forgotten(old(slots[..]), name)[..i]
        invariant slots[i..] == old(slots[i..])
      {
        assert slots[i] == old(slots[i]);
        if slots[i].reqid == Some(name) { slots[i] := slots[i].(reqid := None); }
      }
    }

    /** dvm_mod_evhandler: the first slot of that name gets the status. */
    method Signal(name: Name, st: Status, allocid: Option<string>)
      requires Valid()
      modifies slots
      ensures slots[..] == Signalled(old(slots[..]), name, st, allocid)
    {
      for i := 0 to MAX_PENDING
        invariant slots[..] == old(slots[..])
        invariant FirstNamed(slots[..], name) == i + FirstNamed(slots[i..], name)
      {
        if slots[i].reqid == Some(name) {
          slots[i] := Hit(slots[i], st, allocid);
          return;
        }
        assert slots[i..][1..] == slots[i + 1..];
      }
    }
  }
}
