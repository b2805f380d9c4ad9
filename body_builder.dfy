/**
 * Tapestry's BodyBuilder (org.apache.tapestry.ioc.util), which assembles the
 * text of a generated method body. The text is kept as a sequence of tokens:
 * `begin()` opens a block, `end()` closes it, `add` appends text and `addln`
 * appends text and ends the line. Indentation and the final rendering to a
 * string are not modelled.
 */
module BodyBuilding {

  datatype Token = Text(s: string) | NewLine | Open | Close

  /**
   * The nesting depth reached after scanning `ts` from depth `d`, or -1 as
   * soon as a Close has no Open to match.
   */
  function Nest(ts: seq<Token>, d: nat): int
  {
    if ts == [] then d
    else match ts[0]
      case Open => Nest(ts[1..], d + 1)
      case Close => if d == 0 then -1 else Nest(ts[1..], d - 1)
      case _ => Nest(ts[1..], d)
  }

  /** Every Close matches an earlier Open and every Open is closed. */
  predicate Balanced(ts: seq<Token>) {
    Nest(ts, 0) == 0
  }

  /** Scanning a concatenation scans the first part, then the second from where the first left off. */
  lemma {:induction false} NestAppend(a: seq<Token>, b: seq<Token>, d: nat)
    ensures Nest(a + b, d) == if Nest(a, d) < 0 then -1 else Nest(b, Nest(a, d))
    decreases |a|
  {
    if a != [] {
      assert (a + b)[0] == a[0] && (a + b)[1..] == a[1..] + b;
      match a[0]
      case Open => NestAppend(a[1..], b, d + 1);
      case Close => if d > 0 { NestAppend(a[1..], b, d - 1); }
      case Text(_) => NestAppend(a[1..], b, d);
      case NewLine => NestAppend(a[1..], b, d);
    } else {
      assert a + b == b;
    }
  }

  /** Text and line ends only: no block is opened or closed. */
  predicate Flat(ts: seq<Token>) {
    forall i :: 0 <= i < |ts| ==> ts[i].Text? || ts[i].NewLine?
  }

  /** Scanning tokens that neither open nor close a block leaves the depth as it was. */
  lemma {:induction false} NestFlat(ts: seq<Token>, d: nat)
    requires Flat(ts)
    ensures Nest(ts, d) == d
    decreases |ts|
  {
    if ts != [] {
      NestFlat(ts[1..], d);
    }
  }

  /** `k` Close tokens, as `k` calls of `end()` leave them. */
  function Closes(k: nat): (r: seq<Token>)
    ensures |r| == k && forall i :: 0 <= i < k ==> r[i] == Close
  {
    if k == 0 then [] else Closes(k - 1) + [Close]
  }

  /** `k` Close tokens take depth `d + k` back to `d`. */
  lemma {:induction false} NestCloses(k: nat, d: nat)
    ensures Nest(Closes(k), d + k) == d
  {
    if k > 0 {
      assert Closes(k) == [Close] + Closes(k - 1);
      NestCloses(k - 1, d);
    }
  }

  class BodyBuilder {
    /** Everything appended so far, in order. */
    var tokens: seq<Token>

    constructor ()
      ensures tokens == []
    {
      tokens := [];
    }

    /** begin(): opens a block. */
    method Begin()
      modifies this
      ensures tokens == old(tokens) + [Open]
    {
      tokens := tokens + [Open];
    }

    /** end(): closes the innermost open block. */
    method End()
      modifies this
      ensures tokens == old(tokens) + [Close]
    {
      tokens := tokens + [Close];
    }

    /** add(format, args): appends the already formatted text. */
    method Add(s: string)
      modifies this
      ensures tokens == old(tokens) + [Text(s)]
    {
      tokens := tokens + [Text(s)];
    }

    /** addln(format, args): appends the already formatted text and ends the line. */
    method AddLn(s: string)
      modifies this
      ensures tokens == old(tokens) + [Text(s), NewLine]
    {
      tokens := tokens + [Text(s), NewLine];
    }
  }
}
