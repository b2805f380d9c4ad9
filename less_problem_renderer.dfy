/**
 * The ObjectRenderer that WRO4JModule contributes for LESS compiler problems.
 * A problem is shown as its message, its line and its position, joined with
 * " - ", and each of the three is left out when it carries nothing: a blank
 * or missing message, a line or a position that is not positive.
 */
module LessProblemRenderer {
  import opened Wrappers
  import opened Text

  const Separator := " - "
  const LinePrefix := "line "
  const PositionPrefix := "position "

  /** LessCompiler.Problem: a message (possibly null), a line and a character position. */
  datatype Problem = Problem(message: Option<string>, line: int, character: int)

  /** InternalUtils.isNonBlank(problem.getMessage()) */
  predicate HasMessage(p: Problem) {
    p.message.Some? && !IsBlank(p.message.value)
  }

  function LinePart(n: nat): (r: string)
    ensures StartsWith(r, LinePrefix) && !IsBlank(r)
  {
    var r := LinePrefix + NatToString(n);
    assert r[0] == 'l';
    r
  }

  function PositionPart(n: nat): (r: string)
    ensures StartsWith(r, PositionPrefix) && !IsBlank(r)
  {
    var r := PositionPrefix + NatToString(n);
    assert r[0] == 'p';
    r
  }

  /** The strings the renderer collects for a problem, in the order it adds them. */
  function Parts(p: Problem): (r: seq<string>)
    ensures |r| <= 3
    ensures forall i :: 0 <= i < |r| ==> !IsBlank(r[i])
  {
    (if HasMessage(p) then [p.message.value] else [])
    + (if p.line > 0 then [LinePart(p.line)] else [])
    + (if p.character > 0 then [PositionPart(p.character)] else [])
  }

  /** The text the renderer writes for a problem. */
  function RenderedText(p: Problem): string {
    Join(Parts(p), Separator)
  }

  /** The problem as far as the rendering can show it: a blank message as none, a non-positive line or position as 0. */
  function Normalize(p: Problem): (r: Problem)
    ensures HasMessage(r) == HasMessage(p) && r.line >= 0 && r.character >= 0
  {
    Problem(if HasMessage(p) then p.message else None,
            if p.line > 0 then p.line else 0,
            if p.character > 0 then p.character else 0)
  }

  /** A message that cannot be mistaken for a line or a position part. */
  predicate Unambiguous(p: Problem) {
    HasMessage(p) ==>
      !StartsWith(p.message.value, LinePrefix) && !StartsWith(p.message.value, PositionPrefix)
  }

  predicate Digits(s: string) {
    forall i :: 0 <= i < |s| ==> IsDigit(s[i])
  }

  /** Reads the fields back from the collected parts. */
  function DecodeParts(parts: seq<string>): Problem
    decreases |parts|
  {
    if parts == [] then Problem(None, 0, 0)
    else
      var rest := DecodeParts(parts[1..]);
      if StartsWith(parts[0], PositionPrefix) && Digits(parts[0][|PositionPrefix|..]) then
        rest.(character := ParseNat(parts[0][|PositionPrefix|..]))
      else if StartsWith(parts[0], LinePrefix) && Digits(parts[0][|LinePrefix|..]) then
        rest.(line := ParseNat(parts[0][|LinePrefix|..]))
      else rest.(message := Some(parts[0]))
  }

  lemma DecodeLine(n: nat, rest: seq<string>)
    ensures DecodeParts([LinePart(n)] + rest) == DecodeParts(rest).(line := n)
  {
    var parts := [LinePart(n)] + rest;
    assert parts[1..] == rest;
    assert parts[0][|LinePrefix|..] == NatToString(n);
    assert parts[0][0] == 'l';
    ParseNatToString(n);
  }

  lemma DecodePosition(n: nat, rest: seq<string>)
    ensures DecodeParts([PositionPart(n)] + rest) == DecodeParts(rest).(character := n)
  {
    var parts := [PositionPart(n)] + rest;
    assert parts[1..] == rest;
    assert parts[0][|PositionPrefix|..] == NatToString(n);
    ParseNatToString(n);
  }

  lemma DecodeMessage(m: string, rest: seq<string>)
    requires !StartsWith(m, LinePrefix) && !StartsWith(m, PositionPrefix)
    ensures DecodeParts([m] + rest) == DecodeParts(rest).(message := Some(m))
  {
    assert ([m] + rest)[1..] == rest;
  }

  /** The collected parts carry exactly the normalized problem: nothing is lost except what is left out. */
  lemma {:induction false} DecodeRendered(p: Problem)
    requires Unambiguous(p)
    ensures DecodeParts(Parts(p)) == Normalize(p)
  {
    var m := if HasMessage(p) then [p.message.value] else [];
    var l := if p.line > 0 then [LinePart(p.line)] else [];
    var c := if p.character > 0 then [PositionPart(p.character)] else [];
    assert Parts(p) == m + (l + c);
    var expectC := Problem(None, 0, if p.character > 0 then p.character else 0);
    assert DecodeParts(c) == expectC by {
      if p.character > 0 {
        DecodePosition(p.character, []);
        assert c == [PositionPart(p.character)] + [];
      }
    }
    var expectL := expectC.(line := if p.line > 0 then p.line else 0);
    assert DecodeParts(l + c) == expectL by {
      if p.line > 0 {
        DecodeLine(p.line, c);
      } else {
        assert l + c == c;
      }
    }
    if HasMessage(p) {
      DecodeMessage(p.message.value, l + c);
    } else {
      assert m + (l + c) == l + c;
    }
  }

  /** Rendering looks only at the normalized problem. */
  lemma PartsOfNormalized(p: Problem)
    ensures Parts(Normalize(p)) == Parts(p)
  {
  }

  /** Two unambiguous problems give the same parts exactly when they agree on everything the renderer shows. */
  lemma SamePartsIffSameNormalized(p: Problem, q: Problem)
    requires Unambiguous(p) && Unambiguous(q)
    ensures Parts(p) == Parts(q) <==> Normalize(p) == Normalize(q)
  {
    if Parts(p) == Parts(q) {
      DecodeRendered(p);
      DecodeRendered(q);
    }
    if Normalize(p) == Normalize(q) {
      PartsOfNormalized(p);
      PartsOfNormalized(q);
    }
  }

  /** A message is among the parts exactly when it is not blank; it comes first. */
  lemma MessagePresence(p: Problem, m: string)
    requires p.message == Some(m)
    ensures m in Parts(p) <==> !IsBlank(m)
    ensures !IsBlank(m) ==> Parts(p)[0] == m
  {
  }

  /** The line part is there exactly when the line is positive, after the message if any. */
  lemma LinePresence(p: Problem)
    ensures p.line > 0 <==> |Parts(p)| > (if HasMessage(p) then 1 else 0) && StartsWith(Parts(p)[if HasMessage(p) then 1 else 0], LinePrefix)
    ensures p.line > 0 ==> Parts(p)[if HasMessage(p) then 1 else 0] == LinePart(p.line)
  {
    var k := if HasMessage(p) then 1 else 0;
    if p.line <= 0 && p.character > 0 && |Parts(p)| > k {
      assert Parts(p)[k] == PositionPart(p.character);
      assert PositionPart(p.character)[0] == 'p';
    }
  }

  /** The position part is there exactly when the position is positive, after the message and the line if any, and it is always last. */
  lemma PositionPresence(p: Problem)
    ensures var k := (if HasMessage(p) then 1 else 0) + (if p.line > 0 then 1 else 0);
      p.character > 0 <==> |Parts(p)| > k && StartsWith(Parts(p)[k], PositionPrefix)
    ensures p.character > 0 ==> Parts(p)[|Parts(p)| - 1] == PositionPart(p.character)
  {
  }

  /** The number of parts counts the conditions that hold. */
  lemma PartCount(p: Problem)
    ensures |Parts(p)| == (if HasMessage(p) then 1 else 0) + (if p.line > 0 then 1 else 0) + (if p.character > 0 then 1 else 0)
  {
  }

  lemma {:induction false} JoinNonEmpty(parts: seq<string>, sep: string)
    requires forall i :: 0 <= i < |parts| ==> parts[i] != []
    ensures Join(parts, sep) == [] <==> parts == []
    decreases |parts|
  {
    if |parts| > 1 {
      assert parts[|parts| - 1] != [];
    } else if |parts| == 1 {
      assert parts[0] != [];
    }
  }

  /** The text is empty exactly when there is nothing to show. */
  lemma EmptyTextIffNothingShown(p: Problem)
    ensures RenderedText(p) == [] <==> !HasMessage(p) && p.line <= 0 && p.character <= 0
  {
    var r := Parts(p);
    forall i | 0 <= i < |r| ensures r[i] != [] {
      assert !IsBlank(r[i]);
    }
    JoinNonEmpty(r, Separator);
  }

  /** Joining three parts puts the separator between each two. */
  lemma JoinThree(a: string, b: string, c: string, sep: string)
    ensures Join([a, b, c], sep) == a + sep + b + sep + c
  {
    var s := [a, b, c];
    assert s[..2] == [a, b] && s[2] == c;
    assert Join(s, sep) == Join([a, b], sep) + sep + c;
    JoinTwo(a, b, sep);
  }

  /** Joining two parts puts the separator between them. */
  lemma JoinTwo(a: string, b: string, sep: string)
    ensures Join([a, b], sep) == a + sep + b
  {
    var s := [a, b];
    assert s[..1] == [a] && s[1] == b;
    assert Join(s, sep) == Join([a], sep) + sep + b;
  }

  /** All three parts present: message, line and position in that order. */
  lemma FullText(p: Problem)
    requires HasMessage(p) && p.line > 0 && p.character > 0
    ensures RenderedText(p) == p.message.value + Separator + LinePart(p.line) + Separator + PositionPart(p.character)
  {
    assert Parts(p) == [p.message.value, LinePart(p.line), PositionPart(p.character)];
    JoinThree(p.message.value, LinePart(p.line), PositionPart(p.character), Separator);
  }

  /** Without a message the text starts with the line. */
  lemma TextWithoutMessage(p: Problem)
    requires !HasMessage(p) && p.line > 0
    ensures StartsWith(RenderedText(p), LinePart(p.line))
  {
    var r := Parts(p);
    if p.character > 0 {
      var x, y := LinePart(p.line), PositionPart(p.character);
      assert r == [x, y];
      JoinTwo(x, y, Separator);
      assert (x + Separator + y)[..|x|] == x;
    } else {
      assert r == [LinePart(p.line)];
    }
  }

  /** A problem with only a message renders as the message alone. */
  lemma MessageOnly(p: Problem)
    requires HasMessage(p) && p.line <= 0 && p.character <= 0
    ensures RenderedText(p) == p.message.value
  {
    assert Parts(p) == [p.message.value];
  }

  /** A problem with a message, a line and a position, and the same problem with only a blank message. */
  lemma ExampleProblems()
    ensures RenderedText(Problem(Some("oops"), 3, 7)) == "oops - line 3 - position 7"
    ensures RenderedText(Problem(Some("  "), 0, 0)) == ""
  {
    assert "oops"[0] == 'o';
    FullText(Problem(Some("oops"), 3, 7));
    assert NatToString(3) == "3" && NatToString(7) == "7";
    EmptyTextIffNothingShown(Problem(Some("  "), 0, 0));
  }

  /** Collects what the renderer writes. */
  class MarkupWriter {
    var output: string

    constructor ()
      ensures output == []
    {
      output := [];
    }

    /** MarkupWriter.write: appends text. */
    method Write(text: string)
      modifies this
      ensures output == old(output) + text
    {
      output := output + text;
    }
  }

  /** ObjectRenderer.render for LessCompiler.Problem. */
  method Render(problem: Problem, writer: MarkupWriter)
    modifies writer
    ensures writer.output == old(writer.output) + RenderedText(problem)
  {
    var strings: seq<string> := [];
    if problem.message.Some? && !IsBlank(problem.message.value) {
      strings := strings + [problem.message.value];
    }
    if problem.line > 0 {
      strings := strings + [LinePrefix + NatToString(problem.line)];
    }
    if problem.character > 0 {
      strings := strings + [PositionPrefix + NatToString(problem.character)];
    }
    assert strings == Parts(problem);
    writer.Write(Join(strings, Separator));
  }
}
