/** What the converter keeps, loses and adds, for every input. */
module ConductLaws {
  import opened Conduct

  // ---- link definitions ----

  predicate DefinesAt(lines: seq<Line>, i: nat, name: string)
    requires i < |lines|
  {
    lines[i].kind.Ref? && lines[i].kind.name == name
  }

  ghost predicate Defined(lines: seq<Line>, name: string) { exists i :: 0 <= i < |lines| && DefinesAt(lines, i, name) }

  ghost predicate LastDefinition(lines: seq<Line>, i: nat)
    requires i < |lines|
  {
    lines[i].kind.Ref? && forall j :: i < j < |lines| ==> !DefinesAt(lines, j, lines[i].kind.name)
  }

  /** `refs` has a name exactly if some line defines it, with the URL of the last
      line that does. */
  ghost predicate Defines(lines: seq<Line>, refs: Refs) {
    && (forall name :: name in refs <==> Defined(lines, name))
    && (forall i :: 0 <= i < |lines| && LastDefinition(lines, i) ==>
          lines[i].kind.name in refs && refs[lines[i].kind.name] == lines[i].kind.url)
  }

  lemma {:induction false} RefsDefine(lines: seq<Line>)
    ensures Defines(lines, RefsOf(lines))
  {
    forall name ensures name in RefsOf(lines) <==> Defined(lines, name) { RefsHave(lines, name); }
    forall i | 0 <= i < |lines| && LastDefinition(lines, i)
      ensures lines[i].kind.name in RefsOf(lines) && RefsOf(lines)[lines[i].kind.name] == lines[i].kind.url
    {
      RefsLast(lines, i);
    }
  }

  lemma {:induction false} RefsHave(lines: seq<Line>, name: string)
    ensures name in RefsOf(lines) <==> Defined(lines, name)
  {
    if lines != [] {
      var rest, n := lines[..|lines| - 1], |lines| - 1;
      RefsHave(rest, name);
      if i :| 0 <= i < |rest| && DefinesAt(rest, i, name) { assert DefinesAt(lines, i, name); }
      if i :| 0 <= i < |lines| && DefinesAt(lines, i, name) { assert i < n ==> DefinesAt(rest, i, name); }
      assert DefinesAt(lines, n, name) ==> name in RefsOf(lines);
    }
  }

  lemma {:induction false} RefsLast(lines: seq<Line>, i: nat)
    requires i < |lines| && LastDefinition(lines, i)
    ensures lines[i].kind.name in RefsOf(lines) && RefsOf(lines)[lines[i].kind.name] == lines[i].kind.url
  {
    var rest, n := lines[..|lines| - 1], |lines| - 1;
    if i < n {
      forall j | i < j < |rest| ensures !DefinesAt(rest, j, rest[i].kind.name) {
        assert !DefinesAt(lines, j, lines[i].kind.name);
      }
      RefsLast(rest, i);
      assert !DefinesAt(lines, n, lines[i].kind.name);
    }
  }

  // ---- kept lines ----

  /** Source lines appear in order, each at most once, with their converted text. */
  ghost predicate InOrder(lines: seq<Line>, refs: Refs, conv: Conv, out: seq<Piece>) {
    && (forall p :: 0 <= p < |out| && out[p].origin.From? ==>
          out[p].origin.i < |lines| && out[p].text == conv(lines[out[p].origin.i].text, refs))
    && (forall p, q :: 0 <= p < q < |out| && out[p].origin.From? && out[q].origin.From? ==>
          out[p].origin.i < out[q].origin.i)
  }

  ghost predicate Below(out: seq<Piece>, n: nat) {
    forall p :: 0 <= p < |out| && out[p].origin.From? ==> out[p].origin.i < n
  }

  lemma {:induction false} StepsInOrder(lines: seq<Line>, n: nat, refs: Refs, conv: Conv)
    requires n <= |lines|
    ensures InOrder(lines, refs, conv, Steps(lines, n, refs, conv).out)
    ensures Below(Steps(lines, n, refs, conv).out, n)
  {
    if n == 0 {
      assert forall p :: 0 <= p < |PREAMBLE| ==> PREAMBLE[p].origin == Preamble;
    } else {
      StepsInOrder(lines, n - 1, refs, conv);
      StepInOrder(lines, Steps(lines, n - 1, refs, conv), n - 1, refs, conv);
    }
  }

  lemma {:induction false} StepInOrder(lines: seq<Line>, s: State, n: nat, refs: Refs, conv: Conv)
    requires n < |lines| && InOrder(lines, refs, conv, s.out) && Below(s.out, n)
    ensures var s' := Step(s, lines[n], n, refs, conv); InOrder(lines, refs, conv, s'.out) && Below(s'.out, n + 1)
  {
    var s' := Step(s, lines[n], n, refs, conv);
    StepAdds(s, lines[n], n, refs, conv);
    assert forall p :: 0 <= p < |s.out| ==> s'.out[p] == s.out[p];
  }

  /** Before trimming, a line is emitted unless it is a definition or the blank
      right after a heading. */
  lemma {:induction false} StepsEmit(lines: seq<Line>, n: nat, refs: Refs, conv: Conv, i: nat)
    requires i < n <= |lines|
    ensures Emitted(Steps(lines, n, refs, conv).out, i) <==> !lines[i].kind.Ref? && !Skipped(lines, i)
  {
    var s, s' := Steps(lines, n - 1, refs, conv), Steps(lines, n, refs, conv);
    SkipIsAfterHeading(lines, n - 1, refs, conv);
    StepsInOrder(lines, n - 1, refs, conv);
    StepAdds(s, lines[n - 1], n - 1, refs, conv);
    if i < n - 1 { StepsEmit(lines, n - 1, refs, conv, i); }
    EmittedMore(s.out, s'.out, n - 1, i);
  }

  /** A step appends; it emits line `i` unless it drops it. */
  lemma {:induction false} StepAdds(s: State, line: Line, i: nat, refs: Refs, conv: Conv)
    ensures s.out <= Step(s, line, i, refs, conv).out
    ensures var s' := Step(s, line, i, refs, conv);
            && (forall p :: |s.out| <= p < |s'.out| && s'.out[p].origin.From? ==>
                  s'.out[p].origin.i == i && s'.out[p].text == conv(line.text, refs))
            && (forall p, q :: |s.out| <= p < q < |s'.out| ==> !s'.out[p].origin.From? || !s'.out[q].origin.From?)
            && ((exists p :: |s.out| <= p < |s'.out| && s'.out[p].origin == From(i))
                <==> !line.kind.Ref? && !(s.skip && line.kind.Blank?))
  {
    var s' := Step(s, line, i, refs, conv);
    if !line.kind.Ref? && !(s.skip && line.kind.Blank?) {
      var p := if line.kind.Heading? then |s'.out| - 3 else |s'.out| - 1;
      assert s'.out[p].origin == From(i);
    }
  }

  lemma {:induction false} EmittedMore(a: seq<Piece>, b: seq<Piece>, n: nat, i: nat)
    requires a <= b && i <= n && Below(a, n)
    requires forall p :: |a| <= p < |b| && b[p].origin.From? ==> b[p].origin.i == n
    ensures i < n ==> (Emitted(b, i) <==> Emitted(a, i))
    ensures i == n ==> (Emitted(b, i) <==> exists p :: |a| <= p < |b| && b[p].origin == From(n))
  {
    if i < n && Emitted(a, i) {
      var p :| 0 <= p < |a| && a[p].origin == From(i);
      assert b[p].origin == From(i);
    }
  }

  // ---- the end of the document ----

  ghost predicate EmptyAfter(out: seq<Piece>, p: nat) { forall q :: p < q < |out| ==> out[q].text == "" }

  ghost predicate EmptyLines(lines: seq<Line>, i: nat, n: nat)
    requires n <= |lines|
  {
    forall j :: i < j < n && !lines[j].kind.Ref? ==> lines[j].text == ""
  }

  lemma {:induction false} HeadingBefore(lines: seq<Line>, n: nat) returns (h: nat)
    requires n <= |lines| && AfterHeading(lines, n)
    ensures h < n && lines[h].kind.Heading? && forall j :: h < j < n ==> lines[j].kind.Ref?
  {
    if lines[n - 1].kind.Ref? { h := HeadingBefore(lines, n - 1); } else { h := n - 1; }
  }

  /** After an emitted empty line the output is empty exactly where the input is. */
  lemma {:induction false} StepsTail(lines: seq<Line>, n: nat, refs: Refs, conv: Conv, p: nat, i: nat)
    requires n <= |lines| && Sound(lines, conv)
    requires var out := Steps(lines, n, refs, conv).out; p < |out| && out[p].origin == From(i)
    requires i < n && lines[i].text == "" && !lines[i].kind.Ref?
    ensures EmptyAfter(Steps(lines, n, refs, conv).out, p) <==> EmptyLines(lines, i, n)
  {
    var s, line := Steps(lines, n - 1, refs, conv), lines[n - 1];
    if p < |s.out| {
      assert i < n - 1 by { StepsInOrder(lines, n - 1, refs, conv); }
      StepsTail(lines, n - 1, refs, conv, p, i);
      SkipIsAfterHeading(lines, n - 1, refs, conv);
      if s.skip && line.kind.Blank? && !line.kind.Ref? {
        var h := HeadingBefore(lines, n - 1);
        assert i < h && lines[h].text != "";
        assert Steps(lines, n, refs, conv).out == s.out;
      } else {
        TailMore(s, line, n - 1, refs, conv, p);
      }
    } else {
      OnlyTheLine(s, line, n - 1, refs, conv, p, i);
    }
  }

  /** One more line: still empty exactly if that line is. */
  lemma {:induction false} TailMore(s: State, line: Line, n: nat, refs: Refs, conv: Conv, p: nat)
    requires p < |s.out| && !(s.skip && line.kind.Blank? && !line.kind.Ref?)
    requires conv(line.text, refs) == "" <==> line.text == ""
    requires line.kind.Heading? ==> line.text != ""
    ensures EmptyAfter(Step(s, line, n, refs, conv).out, p)
       <==> EmptyAfter(s.out, p) && (line.kind.Ref? || line.text == "")
  {
    var s' := Step(s, line, n, refs, conv);
    assert forall q :: 0 <= q < |s.out| ==> s'.out[q] == s.out[q];
    if !line.kind.Ref? {
      var q := if line.kind.Heading? then |s'.out| - 3 else |s'.out| - 1;
      assert s'.out[q].text == conv(line.text, refs);
    }
  }

  lemma {:induction false} OnlyTheLine(s: State, line: Line, n: nat, refs: Refs, conv: Conv, p: nat, i: nat)
    requires var out := Step(s, line, n, refs, conv).out; |s.out| <= p < |out| && out[p].origin == From(i)
    requires i <= n && (i == n ==> line.text == "") && (line.kind.Heading? ==> line.text != "")
    ensures i == n && p == |Step(s, line, n, refs, conv).out| - 1
  {
  }

  // ---- added lines ----

  /** A title or a bullet stands after an empty line, or a bullet after a bullet. */
  ghost predicate WellSpaced(lines: seq<Line>, out: seq<Piece>, p: nat)
    requires p < |out|
  {
    out[p].origin.From? && out[p].origin.i < |lines| ==>
      var kind := lines[out[p].origin.i].kind;
      && (kind.Heading? || kind.Bullet? ==> p > 0)
      && (kind.Heading? ==> out[p - 1].text == "")
      && (kind.Bullet? ==> out[p - 1].text == "" || IsBullet(lines, out[p - 1]))
  }

  predicate IsBullet(lines: seq<Line>, x: Piece) {
    x.origin.From? && x.origin.i < |lines| && lines[x.origin.i].kind.Bullet?
  }

  /** What was added: the preamble at the top, an underline of the title's own
      length under each title, and empty lines. */
  ghost predicate Added(lines: seq<Line>, out: seq<Piece>, p: nat)
    requires p < |out|
  {
    && (out[p].origin.Preamble? <==> p < |PREAMBLE|)
    && (p < |PREAMBLE| ==> out[p] == PREAMBLE[p])
    && (out[p].origin.Gap? ==> out[p].text == "")
    && (out[p].origin.Underline? ==>
          && p > 0 && out[p - 1].origin.From? && out[p - 1].origin.i < |lines|
          && lines[out[p - 1].origin.i].kind.Heading? && |out[p].text| == |out[p - 1].text|
          && Drawn(out[p].text, lines[out[p - 1].origin.i].kind.level))
  }

  /** Every level draws its line with its own character; there are six. */
  ghost predicate Drawn(text: string, level: nat) {
    1 <= level <= 6 ==> forall j :: 0 <= j < |text| ==> text[j] == "=-~^\"'"[level - 1]
  }

  ghost predicate LaidOut(lines: seq<Line>, out: seq<Piece>) {
    forall p :: 0 <= p < |out| ==> WellSpaced(lines, out, p) && Added(lines, out, p)
  }

  predicate IsTitle(lines: seq<Line>, x: Piece) {
    x.origin.From? && x.origin.i < |lines| && lines[x.origin.i].kind.Heading?
  }

  /** An empty line is added only where one was missing: after an underline, before
      a title, and before the first bullet of a list. */
  ghost predicate GapNeeded(lines: seq<Line>, out: seq<Piece>, p: nat)
    requires p < |out|
  {
    p > 0 && (out[p - 1].origin.Underline?
              || (out[p - 1].text != "" && p + 1 < |out|
                  && (IsTitle(lines, out[p + 1])
                      || (IsBullet(lines, out[p + 1]) && !IsBullet(lines, out[p - 1])))))
  }

  /** Every title has its underline, and the underline an empty line after it
      unless the document ends there. */
  ghost predicate Framed(lines: seq<Line>, out: seq<Piece>, p: nat)
    requires p < |out|
  {
    && (IsTitle(lines, out[p]) ==> p + 1 < |out| && out[p + 1].origin.Underline?)
    && (out[p].origin.Underline? ==> p + 1 == |out| || out[p + 1].text == "")
    && (out[p].origin.Gap? ==> GapNeeded(lines, out, p))
  }

  ghost predicate AllFramed(lines: seq<Line>, out: seq<Piece>) { forall p :: 0 <= p < |out| ==> Framed(lines, out, p) }

  ghost predicate Ends(lines: seq<Line>, s: State) {
    s.out != [] && !s.out[|s.out| - 1].origin.Underline? && (s.bullet <==> IsBullet(lines, s.out[|s.out| - 1]))
  }

  lemma {:induction false} StepsFramed(lines: seq<Line>, n: nat, refs: Refs, conv: Conv)
    requires n <= |lines|
    ensures AllFramed(lines, Steps(lines, n, refs, conv).out) && Ends(lines, Steps(lines, n, refs, conv))
  {
    if n > 0 {
      StepsFramed(lines, n - 1, refs, conv);
      StepFramed(lines, Steps(lines, n - 1, refs, conv), n - 1, refs, conv);
    }
  }

  lemma {:induction false} StepFramed(lines: seq<Line>, s: State, n: nat, refs: Refs, conv: Conv)
    requires n < |lines| && AllFramed(lines, s.out) && Ends(lines, s)
    ensures AllFramed(lines, Step(s, lines[n], n, refs, conv).out) && Ends(lines, Step(s, lines[n], n, refs, conv))
  {
    var s' := Step(s, lines[n], n, refs, conv);
    forall p | 0 <= p < |s'.out| ensures Framed(lines, s'.out, p) {
      if p < |s.out| { assert Framed(lines, s.out, p); }
    }
  }

  /** Trimming takes no underline away, and every gap it leaves is still needed. */
  lemma {:induction false} TrimFramed(lines: seq<Line>, out: seq<Piece>)
    requires AllFramed(lines, out) && LaidOut(lines, out)
    requires forall p :: 0 <= p < |out| && IsTitle(lines, out[p]) ==> out[p].text != ""
    ensures AllFramed(lines, Trimmed(out))
  {
    var r := Trimmed(out);
    forall p | 0 <= p < |r| ensures Framed(lines, r, p) {
      assert Framed(lines, out, p) && r[p] == out[p];
      if IsTitle(lines, out[p]) { assert Added(lines, out, p + 1); }
      if out[p].origin.Gap? { assert Added(lines, out, p); }
    }
  }

  lemma {:induction false} StepsLaidOut(lines: seq<Line>, n: nat, refs: Refs, conv: Conv)
    requires n <= |lines|
    ensures var s := Steps(lines, n, refs, conv);
            LaidOut(lines, s.out) && |s.out| >= |PREAMBLE| && (s.bullet ==> IsBullet(lines, s.out[|s.out| - 1]))
  {
    if n > 0 {
      StepsLaidOut(lines, n - 1, refs, conv);
      StepLaidOut(lines, Steps(lines, n - 1, refs, conv), n - 1, refs, conv);
    }
  }

  lemma {:induction false} StepLaidOut(lines: seq<Line>, s: State, n: nat, refs: Refs, conv: Conv)
    requires n < |lines| && LaidOut(lines, s.out) && |s.out| >= |PREAMBLE|
    requires s.bullet ==> IsBullet(lines, s.out[|s.out| - 1])
    ensures var s' := Step(s, lines[n], n, refs, conv);
            LaidOut(lines, s'.out) && |s'.out| >= |PREAMBLE| && (s'.bullet ==> IsBullet(lines, s'.out[|s'.out| - 1]))
  {
    var s' := Step(s, lines[n], n, refs, conv);
    forall p | 0 <= p < |s'.out| ensures WellSpaced(lines, s'.out, p) && Added(lines, s'.out, p) {
      if p < |s.out| { assert WellSpaced(lines, s.out, p) && Added(lines, s.out, p); }
    }
  }

  lemma {:induction false} LaidOutPrefix(lines: seq<Line>, out: seq<Piece>, n: nat)
    requires LaidOut(lines, out) && n <= |out|
    ensures LaidOut(lines, out[..n])
  {
    forall p | 0 <= p < n ensures WellSpaced(lines, out[..n], p) && Added(lines, out[..n], p) {
      assert WellSpaced(lines, out, p) && Added(lines, out, p);
    }
  }

  // ---- the document ----

  /** Trimming loses line `i` exactly when everything from it on is empty. */
  lemma {:induction false} TrimLoses(out: seq<Piece>, p: nat)
    requires p < |out|
    ensures p >= |Trimmed(out)| <==> out[p].text == "" && EmptyAfter(out, p)
  {
    var r := Trimmed(out);
    if p < |r| { assert out[|r| - 1] == r[|r| - 1]; }
  }

  /** For every input: the document holds the converted lines in order, each
      once, with links as last defined; it lacks exactly the link definitions,
      the blanks right after a heading and the empty lines at the end;
      everything else in it is the preamble, an underline or an empty line;
      titles stand after an empty line and bullets after an empty line or
      another bullet, every title has its underline, and an empty line is added
      only where one was missing. */
  lemma {:induction false} DocumentKeeps(lines: seq<Line>, conv: Conv)
    requires Sound(lines, conv)
    ensures Defines(lines, RefsOf(lines)) && InOrder(lines, RefsOf(lines), conv, Document(lines, conv))
    ensures forall i :: 0 <= i < |lines| ==>
              (Emitted(Document(lines, conv), i)
               <==> !lines[i].kind.Ref? && !Skipped(lines, i) && !Trailing(lines, i))
    ensures LaidOut(lines, Document(lines, conv)) && AllFramed(lines, Document(lines, conv))
  {
    var refs := RefsOf(lines);
    var out := Steps(lines, |lines|, refs, conv).out;
    RefsDefine(lines);
    StepsInOrder(lines, |lines|, refs, conv);
    StepsLaidOut(lines, |lines|, refs, conv);
    LaidOutPrefix(lines, out, |Trimmed(out)|);
    StepsFramed(lines, |lines|, refs, conv);
    TrimFramed(lines, out);
    assert Trimmed(out) == out[..|Trimmed(out)|];
    forall i | 0 <= i < |lines|
      ensures Emitted(Trimmed(out), i) <==> !lines[i].kind.Ref? && !Skipped(lines, i) && !Trailing(lines, i)
    {
      StepsEmit(lines, |lines|, refs, conv, i);
      TrimEmitsNoMore(out, i);
      if Emitted(out, i) { SurvivesTrim(lines, conv, i); }
    }
  }

  lemma {:induction false} TrimEmitsNoMore(out: seq<Piece>, i: nat)
    ensures Emitted(Trimmed(out), i) ==> Emitted(out, i)
  {
    if p :| 0 <= p < |Trimmed(out)| && Trimmed(out)[p].origin == From(i) {
      assert out[p].origin == From(i);
    }
  }

  lemma {:induction false} SurvivesTrim(lines: seq<Line>, conv: Conv, i: nat)
    requires Sound(lines, conv) && i < |lines| && Emitted(Steps(lines, |lines|, RefsOf(lines), conv).out, i)
    ensures Emitted(Document(lines, conv), i) <==> !Trailing(lines, i)
  {
    var refs := RefsOf(lines);
    var out := Steps(lines, |lines|, refs, conv).out;
    var p :| 0 <= p < |out| && out[p].origin == From(i);
    StepsInOrder(lines, |lines|, refs, conv);
    StepsEmit(lines, |lines|, refs, conv, i);
    TrimLoses(out, p);
    if lines[i].text == "" { StepsTail(lines, |lines|, refs, conv, p, i); }
    OnlyPlace(lines, refs, conv, out, p, i);
  }

  lemma {:induction false} OnlyPlace(lines: seq<Line>, refs: Refs, conv: Conv, out: seq<Piece>, p: nat, i: nat)
    requires InOrder(lines, refs, conv, out) && p < |out| && out[p].origin == From(i)
    ensures Emitted(Trimmed(out), i) <==> p < |Trimmed(out)|
  {
    var r := Trimmed(out);
    if p < |r| { assert r[p] == out[p]; }
    if q :| 0 <= q < |r| && r[q].origin == From(i) { assert out[q] == r[q]; }
  }
}
