/** The object a request's submitter and its callback share: two references,
    whoever drops the last one frees it. Each step is one section under the
    object's lock (or one unlocked access); the two threads interleave freely,
    and the callback may run before the request call has even returned. */
module WaitObject {
  import opened RoutingTree
  import opened Fence

  /** Where the submitter (and then the watcher it hands over to) has got to. */
  datatype Owner =
    | Fresh             // wait_new: holds both references
    | Called            // the request was accepted; the call has not returned
    | Waiting           // in wait_for_callback
    | Woken             // saw `done`
    | Leaving           // about to drop its reference
    | RefusedTwice      // the request failed at once: both references to drop
    | RefusedOnce
    | Freeing           // dropped the last reference
    | Ended

  datatype Callback = Never | Owed | Stored | CbFreeing | CbEnded

  /** `frees`, `touched` and `answer` are history: how often the object was
      freed, whether it was used after that, what the callback was given. */
  datatype Cell = Cell(refs: int, done: bool, status: Status, owner: Owner, cb: Callback,
                       got: Option<Status>, timedOut: bool,
                       frees: nat, touched: bool, answer: Option<Status>)

  datatype Step =
    | Accept | Refuse | Return
    | Answer(st: Status) | CbDrop | CbFree
    | Wake | Timeout | Read | Drop | Free

  const NEW := Cell(2, false, Success, Fresh, Never, None, false, 0, false, None)

  /** Any use of the object. */
  function Touch(c: Cell): Cell { c.(touched := c.touched || c.frees > 0) }

  predicate Enabled(c: Cell, step: Step) {
    match step
    case Accept | Refuse => c.owner == Fresh
    case Return => c.owner == Called
    case Answer(_) => c.cb == Owed
    case CbDrop => c.cb == Stored
    case CbFree => c.cb == CbFreeing
    case Wake => c.owner == Waiting && c.done
    case Timeout => c.owner == Waiting
    case Read => c.owner == Woken
    case Drop => c.owner == Leaving || c.owner == RefusedTwice || c.owner == RefusedOnce
    case Free => c.owner == Freeing
  }

  /** wait_release: drop a reference, and note whether it was the last. */
  function Release(c: Cell): Cell { Touch(c).(refs := c.refs - 1) }

  function Do(c: Cell, step: Step): Cell {
    if !Enabled(c, step) then c
    else match step
      case Accept => c.(owner := Called, cb := Owed)
      case Refuse => c.(owner := RefusedTwice)
      case Return => c.(owner := Waiting)
      case Answer(st) => Touch(c).(status := st, done := true, cb := Stored, answer := Some(st))
      case CbDrop => Release(c).(cb := if c.refs == 1 then CbFreeing else CbEnded)
      case CbFree => Touch(c).(frees := c.frees + 1, cb := CbEnded)
      case Wake => Touch(c).(owner := Woken)
      case Timeout => Touch(c).(owner := Leaving, timedOut := true)
      case Read => Touch(c).(owner := Leaving, got := Some(c.status))
      case Drop =>
        if c.owner == RefusedTwice then Release(c).(owner := RefusedOnce)
        else Release(c).(owner := if c.refs == 1 then Freeing else Ended)
      case Free => Touch(c).(frees := c.frees + 1, owner := Ended)
  }

  /** Steps a thread cannot take yet change nothing. */
  function Exec(steps: seq<Step>): Cell {
    if steps == [] then NEW else Do(Exec(steps[..|steps| - 1]), steps[|steps| - 1])
  }

  function OwnerRefs(o: Owner): nat {
    match o
    case Fresh | RefusedTwice => 2
    case Called | Waiting | Woken | Leaving | RefusedOnce => 1
    case Freeing | Ended => 0
  }

  function CallbackRefs(cb: Callback): nat {
    match cb
    case Owed | Stored => 1
    case Never | CbFreeing | CbEnded => 0
  }

  predicate Inv(c: Cell) {
    && c.refs == OwnerRefs(c.owner) + CallbackRefs(c.cb)
    && !c.touched
    && c.frees == (if c.refs == 0 && c.owner != Freeing && c.cb != CbFreeing then 1 else 0)
    && (c.owner == Freeing ==> c.refs == 0 && c.cb != CbFreeing)
    && (c.cb == CbFreeing ==> c.refs == 0)
    && (c.owner in {Fresh, RefusedTwice, RefusedOnce} ==> c.cb == Never)
    && (c.owner in {Called, Waiting, Woken, Leaving} ==> c.cb != Never)
    && (c.done <==> c.answer.Some?)
    && (c.done <==> c.cb in {Stored, CbFreeing, CbEnded})
    && (c.answer.Some? ==> c.status == c.answer.value)
    && (c.owner == Woken ==> c.done)
    && (c.got.Some? ==> c.got == c.answer)
    && (c.owner == Ended ==> c.cb == Never || c.timedOut || c.got.Some?)
    && ((c.owner == Leaving || (c.owner == Freeing && c.cb != Never)) ==> c.timedOut || c.got.Some?)
  }

  lemma DoKeeps(c: Cell, step: Step)
    requires Inv(c)
    ensures Inv(Do(c, step))
  {
  }

  lemma {:induction false} ExecKeeps(steps: seq<Step>)
    ensures Inv(Exec(steps))
  {
    if steps != [] {
      ExecKeeps(steps[..|steps| - 1]);
      DoKeeps(Exec(steps[..|steps| - 1]), steps[|steps| - 1]);
    }
  }

  /** In every interleaving the object is never used after it is freed and never
      freed twice; once both sides are through it has been freed; and a waiter
      that was woken reads what the callback stored. */
  lemma FreedOnceNeverTouched(steps: seq<Step>)
    ensures var c := Exec(steps);
            && !c.touched && c.frees <= 1
            && (c.owner == Ended && c.cb in {Never, CbEnded} ==> c.frees == 1)
            && (c.frees == 1 ==> c.owner == Ended && c.cb in {Never, CbEnded})
            && (c.got.Some? ==> c.got == c.answer)
            && (c.owner == Ended && c.cb != Never && !c.timedOut ==> c.got.Some? && c.got == c.answer)
  {
    ExecKeeps(steps);
  }

  /** The waiter gave up at step `n`. */
  predicate GaveUpAt(steps: seq<Step>, n: nat)
    requires n < |steps|
  {
    steps[n] == Timeout && Enabled(Exec(steps[..n]), Timeout)
  }

  /** It reports a timeout exactly if it gave up. */
  lemma {:induction false} TimedOutIffGaveUp(steps: seq<Step>)
    ensures Exec(steps).timedOut <==> exists n :: 0 <= n < |steps| && GaveUpAt(steps, n)
  {
    if steps != [] {
      var before := steps[..|steps| - 1];
      TimedOutIffGaveUp(before);
      if n :| 0 <= n < |before| && GaveUpAt(before, n) {
        assert before[..n] == steps[..n] && GaveUpAt(steps, n);
      }
      forall n | 0 <= n < |before| && GaveUpAt(steps, n) ensures GaveUpAt(before, n) {
        assert before[..n] == steps[..n];
      }
      assert Exec(steps).timedOut && !Exec(before).timedOut ==> GaveUpAt(steps, |before|);
    }
  }

  /** From wherever the callback has been heard of, the waiter gets to read what
      the callback was given, without a timeout. */
  lemma WokenReads(steps: seq<Step>)
    requires Enabled(Exec(steps), Wake)
    ensures var c, c' := Exec(steps), Exec(steps + [Wake, Read]);
            && c.answer.Some? && c'.got == c.answer && c'.answer == c.answer && c'.timedOut == c.timedOut
            && c'.owner == Leaving
  {
    ExecKeeps(steps);
    assert (steps + [Wake, Read])[..|steps| + 1] == steps + [Wake];
    assert (steps + [Wake])[..|steps|] == steps;
  }

  /** The callback's first answer is the one that stays. */
  lemma {:induction false} AnswerIsFirst(steps: seq<Step>, more: seq<Step>)
    requires Exec(steps).answer.Some?
    ensures Exec(steps + more).answer == Exec(steps).answer
  {
    if more == [] {
      assert steps + more == steps;
    } else {
      AnswerIsFirst(steps, more[..|more| - 1]);
      assert (steps + more)[..|steps + more| - 1] == steps + more[..|more| - 1];
      ExecKeeps(steps + more[..|more| - 1]);
      AnswerKept(Exec(steps + more[..|more| - 1]), more[|more| - 1]);
    }
  }

  lemma AnswerKept(c: Cell, step: Step)
    requires Inv(c) && c.answer.Some?
    ensures Do(c, step).answer == c.answer
  {
  }

  /** An answer given is the answer kept. */
  lemma AnswerStored(steps: seq<Step>, st: Status)
    requires Enabled(Exec(steps), Answer(st))
    ensures Exec(steps + [Answer(st)]).answer == Some(st)
  {
    assert (steps + [Answer(st)])[..|steps|] == steps;
  }

  /** Whatever either side may do next, the object it does it to is still there. */
  lemma UsesAreSafe(steps: seq<Step>, step: Step)
    requires Enabled(Exec(steps), step)
    ensures Exec(steps).frees == 0
  {
    ExecKeeps(steps);
  }

  /** A request refused at once is cleaned up by the submitter alone. */
  lemma RefusedCleansUp(steps: seq<Step>)
    requires Enabled(Exec(steps), Refuse)
    ensures var c := Do(Do(Do(Do(Exec(steps), Refuse), Drop), Drop), Free);
            c.owner == Ended && c.cb == Never && c.frees == 1
  {
    ExecKeeps(steps);
    BothDropped(Exec(steps));
  }

  lemma BothDropped(c: Cell)
    requires c.owner == Fresh && c.cb == Never && c.refs == 2 && c.frees == 0
    ensures var c' := Do(Do(Do(Do(c, Refuse), Drop), Drop), Free); c'.owner == Ended && c'.cb == Never && c'.frees == 1
  {
    var c1 := Do(c, Refuse);
    assert c1 == c.(owner := RefusedTwice);
    var c2 := Do(c1, Drop);
    assert c2.owner == RefusedOnce && c2.refs == 1;
  }

  /** Once the request call has returned the submitter can always get away: it
      may give up, and dropping its reference leaves only the freeing, if it was
      the last. */
  lemma GivesUp(steps: seq<Step>)
    requires Enabled(Exec(steps), Return)
    ensures var c := Exec(steps);
            var c' := Do(Do(Do(c, Return), Timeout), Drop);
            && c'.timedOut && c'.got == c.got && c'.cb == c.cb
            && c'.owner == if c.cb == CbEnded then Freeing else Ended
  {
    ExecKeeps(steps);
    DropsOne(Exec(steps));
  }

  lemma DropsOne(c: Cell)
    requires c.owner == Called
    ensures var c' := Do(Do(Do(c, Return), Timeout), Drop);
            && c'.timedOut && c'.got == c.got && c'.cb == c.cb
            && c'.owner == if c.refs == 1 then Freeing else Ended
  {
    var c1 := Do(c, Return);
    assert c1 == c.(owner := Waiting);
    var c2 := Do(c1, Timeout);
    assert c2.owner == Leaving && c2.timedOut && c2.refs == c.refs && c2.got == c.got && c2.cb == c.cb;
  }
}
