/** Newline framing of a byte stream that arrives in arbitrary pieces. */
module Framing {

  /** The position of the first newline, |s| if there is none. */
  function Newline(s: string): (p: nat)
    ensures p <= |s| && (p < |s| ==> s[p] == '\n') && forall i :: 0 <= i < p ==> s[i] != '\n'
  {
    if s == [] || s[0] == '\n' then 0 else 1 + Newline(s[1..])
  }

  function Lines(s: string): seq<string>
    decreases |s|
  {
    var p := Newline(s);
    if p == |s| then [] else [s[..p]] + Lines(s[p + 1..])
  }

  function Leftover(s: string): (r: string)
    ensures '\n' !in r
    decreases |s|
  {
    var p := Newline(s);
    if p == |s| then s else Leftover(s[p + 1..])
  }

  function Unframe(lines: seq<string>): string {
    if lines == [] then "" else lines[0] + "\n" + Unframe(lines[1..])
  }

  lemma {:induction false} NewlineConcat(a: string, b: string)
    ensures Newline(a) < |a| ==> Newline(a + b) == Newline(a)
    ensures Newline(a) == |a| ==> Newline(a + b) == |a| + Newline(b)
  {
    if a == [] {
      assert a + b == b;
    } else {
      assert (a + b)[1..] == a[1..] + b;
      NewlineConcat(a[1..], b);
    }
  }

  lemma NoNewline(s: string)
    requires '\n' !in s
    ensures Lines(s) == [] && Leftover(s) == s
  {}

  lemma {:induction false} FramedBy(s: string)
    requires Newline(s) < |s|
    ensures var p := Newline(s); var t := s[p + 1..];
            && s == s[..p] + "\n" + t && '\n' !in s[..p]
            && Lines(s) == [s[..p]] + Lines(t) && Leftover(s) == Leftover(t)
  {
    hide Lines, Leftover;
    LinesStep(s);
    var p := Newline(s);
    assert s == s[..p] + [s[p]] + s[p + 1..];
  }

  lemma {:induction false} LinesStep(s: string)
    requires Newline(s) < |s|
    ensures Lines(s) == [s[..Newline(s)]] + Lines(s[Newline(s) + 1..]) && Leftover(s) == Leftover(s[Newline(s) + 1..])
  {}

  lemma UnframeCons(line: string, lines: seq<string>)
    ensures Unframe([line] + lines) == line + "\n" + Unframe(lines)
  {
    assert ([line] + lines)[1..] == lines;
  }

  /** No byte is lost: lines and leftover make up the stream, and no line holds a newline. */
  lemma {:induction false} FrameLosesNothing(s: string)
    ensures Unframe(Lines(s)) + Leftover(s) == s
    ensures forall i :: 0 <= i < |Lines(s)| ==> '\n' !in Lines(s)[i]
    decreases |s|
  {
    var p := Newline(s);
    if p < |s| {
      hide Lines, Leftover, Newline, Unframe;
      var t := s[p + 1..];
      FramedBy(s);
      FrameLosesNothing(t);
      UnframeCons(s[..p], Lines(t));
      assert s[..p] + "\n" + Unframe(Lines(t)) + Leftover(t) == s[..p] + "\n" + (Unframe(Lines(t)) + Leftover(t));
    }
  }

  lemma UnframeHead(lines: seq<string>, rest: string)
    requires lines != [] && '\n' !in lines[0]
    ensures var s := Unframe(lines) + rest;
            Newline(s) == |lines[0]| < |s| && s[..|lines[0]|] == lines[0]
            && s[|lines[0]| + 1..] == Unframe(lines[1..]) + rest
  {
    var line, tail := lines[0], Unframe(lines[1..]) + rest;
    assert Unframe(lines) + rest == line + ("\n" + tail);
    hide Unframe;
    NewlineFirst(line, tail);
  }

  lemma NewlineFirst(line: string, tail: string)
    requires '\n' !in line
    ensures var s := line + ("\n" + tail);
            Newline(s) == |line| < |s| && s[..|line|] == line && s[|line| + 1..] == tail
  {
    hide Newline;
    NewlineConcat(line, "\n" + tail);
    assert ("\n" + tail)[0] == '\n';
  }

  /** Only one list of lines without newlines makes up a stream: the lines of the stream. */
  lemma {:induction false} OnlyTheseLines(lines: seq<string>, rest: string)
    requires forall i :: 0 <= i < |lines| ==> '\n' !in lines[i]
    ensures Lines(Unframe(lines) + rest) == lines + Lines(rest)
    ensures Leftover(Unframe(lines) + rest) == Leftover(rest)
    decreases |lines|
  {
    hide Lines, Leftover, Newline;
    if lines == [] {
      assert Unframe(lines) + rest == rest && lines + Lines(rest) == Lines(rest);
    } else {
      hide Unframe;
      UnframeHead(lines, rest);
      OnlyTheseLines(lines[1..], rest);
      LinesStep(Unframe(lines) + rest);
      HeadAndRest(lines, Lines(rest));
    }
  }

  lemma HeadAndRest(lines: seq<string>, more: seq<string>)
    requires lines != []
    ensures lines + more == [lines[0]] + (lines[1..] + more)
  {}

  lemma {:induction false} UnframeSnoc(lines: seq<string>, line: string)
    ensures Unframe(lines + [line]) == Unframe(lines) + line + "\n"
  {
    if lines == [] {
      assert lines + [line] == [line];
      assert [line][1..] == [];
      assert Unframe([line]) == line + "\n" + Unframe([]);
    } else {
      assert (lines + [line])[1..] == lines[1..] + [line];
      UnframeSnoc(lines[1..], line);
    }
  }
}
