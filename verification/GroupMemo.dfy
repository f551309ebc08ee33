/** What is remembered of group operations, and what their callers are told. */
module GroupMemo {
  import opened Fence
  import opened GroupPending
  import opened GroupCompletions

  // ---- the memo ----

  predicate Ends(step: Step, x: Name) { step.Finish? && NameOf(step.g) == x }

  /** An operation a local client has started is not taken for a finished one
      until it is released, whatever else happens: every contribution to it is
      taken, into the tracker it agrees with or a new one. */
  lemma {:induction false} UnderWay(steps: seq<Step>, start: Step, x: Name, more: seq<Step>)
    requires Restarts(start, x) && forall n :: 0 <= n < |more| ==> !Ends(more[n], x)
    ensures x !in Exec(steps + [start] + more).memo
  {
    var begun := steps + [start];
    if more == [] {
      assert begun + more == begun && begun[..|steps|] == steps;
    } else {
      var rest, step := more[..|more| - 1], more[|more| - 1];
      UnderWay(steps, start, x, rest);
      assert (begun + more)[..|begun + more| - 1] == begun + rest;
      NotRemembered(Exec(begun + rest), step, x);
    }
  }

  lemma NotRemembered(s: Server, step: Step, x: Name)
    requires x !in s.memo && !Ends(step, x)
    ensures x !in Do(s, step).memo
  {
    if step.Finish? { ReleasedIs(s, step.g, step.st); }
  }

  lemma ContributionTaken(steps: seq<Step>, start: Step, more: seq<Step>, h: Group, resolves: bool)
    requires Restarts(start, NameOf(h)) && forall n :: 0 <= n < |more| ==> !Ends(more[n], NameOf(h))
    ensures var s := Exec(steps + [start] + more);
            Do(s, Receive(h, resolves)) == s.(colls := Got(s.colls, h, Open(resolves)).0)
  {
    UnderWay(steps, start, NameOf(h), more);
  }

  /** Released at step `i`, and not started again here since. */
  ghost predicate EndedAt(steps: seq<Step>, i: nat, x: Name)
    requires i < |steps|
  {
    Ends(steps[i], x) && forall j :: i < j < |steps| ==> !Restarts(steps[j], x)
  }

  /** Only such an operation is remembered. */
  lemma {:induction false} RememberedFor(steps: seq<Step>, x: Name) returns (i: nat)
    requires x in Exec(steps).memo
    ensures i < |steps| && EndedAt(steps, i, x)
  {
    var rest, n := steps[..|steps| - 1], |steps| - 1;
    if Ends(steps[n], x) {
      i := n;
    } else {
      StillRemembered(Exec(rest), steps[n], x);
      i := RememberedFor(rest, x);
      EndedStays(rest, steps[n], i, x);
      assert steps == rest + [steps[n]];
    }
  }

  lemma EndedStays(steps: seq<Step>, last: Step, i: nat, x: Name)
    requires i < |steps| && EndedAt(steps, i, x) && !Restarts(last, x)
    ensures EndedAt(steps + [last], i, x)
  {
  }

  lemma StillRemembered(s: Server, step: Step, x: Name)
    requires x in Do(s, step).memo && !Ends(step, x)
    ensures x in s.memo && !Restarts(step, x)
  {
    if step.Finish? { ReleasedIs(s, step.g, step.st); }
  }

  // ---- what callers are told ----

  /** Whom a step answers, in order: a release everybody queued on the tracker it
      agrees with, a failed up-call or a cancel its own caller. */
  function Answers(s: Server, step: Step): seq<Token> {
    match step
    case Enter(g, cb, fate) =>
      if cb.Some? && (fate.BadDirectives? || fate.Unsent? || Got(s.colls, g, Open(!fate.Unresolved?)).1.None?)
      then [cb.value] else []
    case Cancel(cb, _) => if cb.Some? then [cb.value] else []
    case Receive(_, _) => []
    case Finish(g, _) =>
      var i := Index(s.colls, g);
      if i < |s.colls| && Agrees(s.colls[i], g) then s.colls[i].pending else []
  }

  /** ... and what they are told: the first thing that went wrong, or the status
      handed in. */
  predicate Tells(s: Server, step: Step, st: Status) {
    match step
    case Enter(g, _, fate) =>
      if fate.BadDirectives? then st == Error(fate.e)
      else if Got(s.colls, g, Open(!fate.Unresolved?)).1.None? then st == NOT_FOUND
      else fate.Unsent? && st == Error(fate.e)
    case Cancel(_, told) => st == told
    case Receive(_, _) => false
    case Finish(_, told) => st == told
  }

  /** After any run, a step answers exactly these, with its own status, and takes
      back no answer given. */
  lemma AnswersAre(steps: seq<Step>, step: Step)
    ensures var s, s' := Exec(steps), Exec(steps + [step]);
            var told := Answers(s, step);
            && |s'.invoked| == |s.invoked| + |told| && s.invoked <= s'.invoked
            && forall i :: 0 <= i < |told| ==>
                 s'.invoked[|s.invoked| + i].token == told[i] && Tells(s, step, s'.invoked[|s.invoked| + i].status)
  {
    assert (steps + [step])[..|steps|] == steps;
    if step.Finish? { FoldKeepsPending(Exec(steps), step.g); }
  }

  lemma FoldKeepsPending(s: Server, g: Group)
    ensures var i := Index(s.colls, g); i < |s.colls| ==> Fold(s.colls[i], g).pending == s.colls[i].pending
  {
  }
}
