/** The Markdown-to-RST converter: one pass collects the link definitions, one
    emits the document line by line. What a line is, and what link conversion
    makes of a text, are taken as given. */
module Conduct {

  datatype Kind = Ref(name: string, url: string) | Blank | Heading(level: nat) | Bullet | Text

  /** A source line; a heading's text is its title. */
  datatype Line = Line(kind: Kind, text: string)

  type Refs = map<string, string>

  /** Where an output line comes from; the converter looks only at its text. */
  datatype Origin = Preamble | From(i: nat) | Underline | Gap
  datatype Piece = Piece(text: string, origin: Origin)

  type Conv = (string, Refs) -> string

  const PREAMBLE := [Piece("..", Preamble),
                     Piece("   This file was generated from .github/CODE_OF_CONDUCT.md by docs/Makefile.am.", Preamble),
                     Piece("   Do not edit directly.", Preamble),
                     Piece("", Preamble)]

  const GAP := Piece("", Gap)

  const UNDERLINES := ['=', '-', '~', '^', '"', '\'']

  /** The line patterns only match lines with something in them, and a link
      never converts to nothing. */
  ghost predicate Sound(lines: seq<Line>, conv: Conv) {
    && (forall i :: 0 <= i < |lines| && !lines[i].kind.Ref? && !lines[i].kind.Blank? ==> lines[i].text != "")
    && (forall i :: 0 <= i < |lines| && lines[i].kind.Heading? ==> 1 <= lines[i].kind.level <= 6)
    && (forall t, r :: conv(t, r) == "" <==> t == "")
  }

  function Underlined(level: nat, n: nat): (u: string)
    ensures |u| == n
  {
    var l := if level <= 1 then 0 else if level - 1 < |UNDERLINES| then level - 1 else |UNDERLINES| - 1;
    seq(n, i => UNDERLINES[l])
  }

  // ---- what each pass computes ----

  function RefsOf(lines: seq<Line>): Refs {
    if lines == [] then map[]
    else
      var refs, last := RefsOf(lines[..|lines| - 1]), lines[|lines| - 1];
      if last.kind.Ref? then refs[last.kind.name := last.kind.url] else refs
  }

  datatype State = State(out: seq<Piece>, skip: bool, bullet: bool)

  /** An empty line first, unless there is one. */
  function Spaced(out: seq<Piece>): seq<Piece> {
    if out != [] && out[|out| - 1].text != "" then out + [GAP] else out
  }

  function Titled(line: Line, i: nat, title: string): seq<Piece>
    requires line.kind.Heading?
  {
    [Piece(title, From(i)), Piece(Underlined(line.kind.level, |title|), Underline), GAP]
  }

  function Step(s: State, line: Line, i: nat, refs: Refs, conv: Conv): State {
    if line.kind.Ref? then s
    else if s.skip && line.kind.Blank? then s.(skip := false)
    else if line.kind.Heading? then
      State(Spaced(s.out) + Titled(line, i, conv(line.text, refs)), true, false)
    else
      var out := if line.kind.Bullet? && !s.bullet then Spaced(s.out) else s.out;
      State(out + [Piece(conv(line.text, refs), From(i))], false, line.kind.Bullet?)
  }

  function Steps(lines: seq<Line>, n: nat, refs: Refs, conv: Conv): State
    requires n <= |lines|
  {
    if n == 0 then State(PREAMBLE, false, false)
    else Step(Steps(lines, n - 1, refs, conv), lines[n - 1], n - 1, refs, conv)
  }

  function Trimmed(out: seq<Piece>): (r: seq<Piece>)
    ensures r <= out
    ensures r != [] ==> r[|r| - 1].text != ""
    ensures forall p :: |r| <= p < |out| ==> out[p].text == ""
  {
    if out != [] && out[|out| - 1].text == "" then Trimmed(out[..|out| - 1]) else out
  }

  function Document(lines: seq<Line>, conv: Conv): seq<Piece> {
    Trimmed(Steps(lines, |lines|, RefsOf(lines), conv).out)
  }

  /** convert, as written. */
  method Convert(lines: seq<Line>, conv: Conv) returns (out: seq<Piece>)
    ensures out == Document(lines, conv)
  {
    var refs: Refs := map[];
    for i := 0 to |lines|
      invariant refs == RefsOf(lines[..i])
    {
      assert lines[..i + 1][..i] == lines[..i];
      if lines[i].kind.Ref? { refs := refs[lines[i].kind.name := lines[i].kind.url]; }
    }
    assert lines[..|lines|] == lines;

    out := PREAMBLE;
    var skip, bullet := false, false;
    for i := 0 to |lines|
      invariant State(out, skip, bullet) == Steps(lines, i, refs, conv)
    {
      var line := lines[i];
      if line.kind.Ref? { continue; }
      if skip && line.kind.Blank? { skip := false; continue; }
      skip := false;
      if line.kind.Heading? {
        if out != [] && out[|out| - 1].text != "" { out := out + [GAP]; }
        var title := conv(line.text, refs);
        out := out + Titled(line, i, title);
        skip, bullet := true, false;
      } else {
        if line.kind.Bullet? && out != [] && out[|out| - 1].text != "" && !bullet { out := out + [GAP]; }
        out := out + [Piece(conv(line.text, refs), From(i))];
        bullet := line.kind.Bullet?;
      }
    }

    ghost var whole := out;
    while out != [] && out[|out| - 1].text == ""
      invariant Trimmed(out) == Trimmed(whole)
    {
      out := out[..|out| - 1];
    }
  }

  // ---- what becomes of a source line ----

  /** The last line before `i` that is not a link definition is a heading. */
  predicate AfterHeading(lines: seq<Line>, i: nat)
    requires i <= |lines|
  {
    i > 0 && (if lines[i - 1].kind.Ref? then AfterHeading(lines, i - 1) else lines[i - 1].kind.Heading?)
  }

  predicate Skipped(lines: seq<Line>, i: nat)
    requires i < |lines|
  {
    lines[i].kind.Blank? && AfterHeading(lines, i)
  }

  /** Empty, with nothing but empty lines and link definitions after it. */
  predicate Trailing(lines: seq<Line>, i: nat)
    requires i < |lines|
  {
    lines[i].text == "" && forall j :: i < j < |lines| && !lines[j].kind.Ref? ==> lines[j].text == ""
  }

  ghost predicate Emitted(out: seq<Piece>, i: nat) { exists p :: 0 <= p < |out| && out[p].origin == From(i) }

  lemma {:induction false} SkipIsAfterHeading(lines: seq<Line>, n: nat, refs: Refs, conv: Conv)
    requires n <= |lines|
    ensures Steps(lines, n, refs, conv).skip <==> AfterHeading(lines, n)
  {
    if n > 0 { SkipIsAfterHeading(lines, n - 1, refs, conv); }
  }
}
