/**
 * The output size of the Web API's `camera._convertVideoFormats` command (Kotlin client): a
 * `"WxH"` string such as `"3840x1920"`, whose width and height are read back by splitting at `x`.
 */
module ConvertVideoFormats {
  import opened Wrappers
  import opened Numbers
  import opened Text

  /** The size value class; its constructor is private, so only the two constants are built in code. */
  datatype Size = Size(value: string)

  const W3840_H1920: Size := Size("3840x1920")

  const W1920_H960: Size := Size("1920x960")

  /** `list.getOrNull(i)`. */
  function GetOrNull<T>(xs: seq<T>, i: nat): (r: Option<T>)
    ensures r.Some? <==> i < |xs|
    ensures r.Some? ==> r.value == xs[i]
  {
    if i < |xs| then Some(xs[i]) else None
  }

  /** `value.split("x").getOrNull(i)?.toIntOrNull() ?: -1`. */
  function Component(s: Size, i: nat): (n: int)
    ensures n == -1 || IsInt32(n)
    ensures i >= |Split(s.value, 'x')| ==> n == -1
  {
    match GetOrNull(Split(s.value, 'x'), i)
    case None => -1
    case Some(piece) =>
      match ToIntOrNull(piece)
      case None => -1
      case Some(v) => v
  }

  /** The integer before the first `x`, or -1. */
  function Width(s: Size): (w: int)
    ensures w == -1 || IsInt32(w)
  {
    Component(s, 0)
  }

  /** The integer between the first and the second `x`, or -1. */
  function Height(s: Size): (h: int)
    ensures h == -1 || IsInt32(h)
    ensures Lacks(s.value, 'x') ==> h == -1
  {
    SplitSpec(s.value, 'x');
    Component(s, 1)
  }

  /** The text of an integer has no `x` in it. */
  lemma IntTextLacksX(n: int)
    ensures Lacks(IntToString(n), 'x')
  {
    var s := IntToString(n);
    if n < 0 {
      IntToStringNegative(n);
      assert forall i :: 1 <= i < |s| ==> s[i] == NatToString(-n)[i - 1];
    }
  }

  /** The text `"WxH"` of two `int`s. */
  function SizeOf(w: int, h: int): (s: Size)
    ensures |s.value| >= 3
  {
    Size(IntToString(w) + "x" + IntToString(h))
  }

  /** Writing two `int`s as `"WxH"` and reading the size back gives the same width and height. */
  lemma RoundTrip(w: int, h: int)
    requires IsInt32(w) && IsInt32(h)
    ensures Width(SizeOf(w, h)) == w && Height(SizeOf(w, h)) == h
  {
    IntTextLacksX(w);
    IntTextLacksX(h);
    SplitAround(IntToString(w), IntToString(h), 'x');
    assert SizeOf(w, h).value == IntToString(w) + ['x'] + IntToString(h);
    ParseIntOfIntToString(w);
    ParseIntOfIntToString(h);
  }

  /** The first two pieces of `"axbxrest"`, for delimiter-free `a` and `b`, are `a` and `b`. */
  lemma FirstTwoPieces(a: string, b: string, rest: string)
    requires Lacks(a, 'x') && Lacks(b, 'x')
    ensures |Split(a + "x" + b + "x" + rest, 'x')| >= 2
    ensures Split(a + "x" + b + "x" + rest, 'x')[0] == a && Split(a + "x" + b + "x" + rest, 'x')[1] == b
  {
    var s := a + "x" + b + "x" + rest;
    IndexFromFirst(s, 'x', 0, |a|);
    assert s[..|a|] == a;
    var t := s[|a| + 1..];
    assert t == b + "x" + rest;
    IndexFromFirst(t, 'x', 0, |b|);
    assert t[..|b|] == b;
    SplitUnfold(s, 'x');
    SplitUnfold(t, 'x');
  }

  /**
   * Only the first two pieces are read: text after a second `x` is ignored, and a piece that is
   * not an `int` reads as -1 without affecting the other component.
   */
  lemma PiecesRead(a: string, b: string, rest: string)
    requires Lacks(a, 'x') && Lacks(b, 'x')
    ensures Width(Size(a + "x" + b + "x" + rest)) == (if ParseInt(a).Success? then ParseInt(a).value else -1)
    ensures Height(Size(a + "x" + b + "x" + rest)) == (if ParseInt(b).Success? then ParseInt(b).value else -1)
  {
    FirstTwoPieces(a, b, rest);
  }

  /** A size without any `x` has no height, and its width is the whole text read as an `int`. */
  lemma NoSeparator(v: string)
    requires Lacks(v, 'x')
    ensures Width(Size(v)) == (if ParseInt(v).Success? then ParseInt(v).value else -1)
    ensures Height(Size(v)) == -1
  {
    SplitSpec(v, 'x');
  }

  lemma Texts()
    ensures IntToString(3840) == "3840" && IntToString(1920) == "1920" && IntToString(960) == "960"
  {
  }

  /** The two sizes the client offers read as 3840 by 1920 and 1920 by 960. */
  lemma Constants()
    ensures Width(W3840_H1920) == 3840 && Height(W3840_H1920) == 1920
    ensures Width(W1920_H960) == 1920 && Height(W1920_H960) == 960
  {
    Texts();
    hide IntToString;
    assert W3840_H1920 == SizeOf(3840, 1920);
    assert W1920_H960 == SizeOf(1920, 960);
    RoundTrip(3840, 1920);
    RoundTrip(1920, 960);
  }
}
