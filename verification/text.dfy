/** String helpers with the JVM/Kotlin semantics the client relies on, restricted to ASCII. */
module Text {

  type byte = b: int | 0 <= b < 256

  /** Bytes read as text. For ASCII bytes this is what UTF-8 decoding gives. */
  function AsciiText(bs: seq<byte>): (s: string)
    ensures |s| == |bs|
  {
    seq(|bs|, i requires 0 <= i < |bs| => bs[i] as char)
  }

  predicate IsAscii(s: string) {
    forall i :: 0 <= i < |s| ==> s[i] as int < 128
  }

  /** The bytes of an ASCII string (its UTF-8 encoding). */
  function AsciiBytes(s: string): (bs: seq<byte>)
    requires IsAscii(s)
    ensures |bs| == |s|
    ensures AsciiText(bs) == s
  {
    seq(|s|, i requires 0 <= i < |s| => s[i] as int)
  }

  /** Each byte of an ASCII string's encoding is its character's code. */
  lemma AsciiBytesSpec(s: string)
    requires IsAscii(s)
    ensures forall i :: 0 <= i < |s| ==> AsciiBytes(s)[i] == s[i] as int
  {
  }

  /** The characters `String.trim()` removes: every code point up to and including space. */
  predicate IsTrimChar(c: char) {
    c as int <= 0x20
  }

  /** How many characters `trim()` removes from the front of `s`. */
  function LeadCount(s: string): (n: nat)
    ensures n <= |s|
  {
    if |s| > 0 && IsTrimChar(s[0]) then 1 + LeadCount(s[1..]) else 0
  }

  /** The leading run is exactly the trim characters before the first other character. */
  lemma {:induction false} LeadCountSpec(s: string)
    ensures forall i :: 0 <= i < LeadCount(s) ==> IsTrimChar(s[i])
    ensures LeadCount(s) < |s| ==> !IsTrimChar(s[LeadCount(s)])
    decreases |s|
  {
    if |s| > 0 && IsTrimChar(s[0]) {
      LeadCountSpec(s[1..]);
      forall i | 1 <= i < LeadCount(s)
        ensures IsTrimChar(s[i])
      {
        assert s[i] == s[1..][i - 1];
      }
    }
  }

  /** How many characters `trim()` removes from the back of `s`. */
  function TrailCount(s: string): (n: nat)
    ensures n <= |s|
  {
    if |s| > 0 && IsTrimChar(s[|s| - 1]) then 1 + TrailCount(s[..|s| - 1]) else 0
  }

  /** The trailing run is exactly the trim characters after the last other character. */
  lemma {:induction false} TrailCountSpec(s: string)
    ensures forall i :: |s| - TrailCount(s) <= i < |s| ==> IsTrimChar(s[i])
    ensures TrailCount(s) < |s| ==> !IsTrimChar(s[|s| - TrailCount(s) - 1])
    decreases |s|
  {
    if |s| > 0 && IsTrimChar(s[|s| - 1]) {
      var t := s[..|s| - 1];
      TrailCountSpec(t);
      forall i | |s| - TrailCount(s) <= i < |s| - 1
        ensures IsTrimChar(s[i])
      {
        assert s[i] == t[i];
      }
      if TrailCount(s) < |s| {
        assert s[|s| - TrailCount(s) - 1] == t[|t| - TrailCount(t) - 1];
      }
    }
  }

  /** Java's `String.trim()`: leading and trailing control characters and spaces removed. */
  function Trim(s: string): (r: string)
    ensures |r| <= |s|
  {
    var a := LeadCount(s);
    if a == |s| then []
    else
      assert TrailCount(s) < |s| - a by {
        LeadCountSpec(s);
        TrailCountSpec(s);
        assert !IsTrimChar(s[a]);
      }
      s[a..|s| - TrailCount(s)]
  }

  /**
   * `trim()` keeps one contiguous piece of `s`, starting after the leading trim characters;
   * the piece has no trim character at either end, and a string with none there is kept whole.
   */
  lemma TrimSpec(s: string)
    ensures LeadCount(s) + |Trim(s)| <= |s| && Trim(s) == s[LeadCount(s)..LeadCount(s) + |Trim(s)|]
    ensures Trimmed(Trim(s))
    ensures Trimmed(s) ==> Trim(s) == s
  {
    LeadCountSpec(s);
    TrailCountSpec(s);
    var a := LeadCount(s);
    if Trimmed(s) && |s| > 0 {
      assert a == 0;
      assert TrailCount(s) == 0;
    }
  }

  /** The space after a header's colon is trimmed away. */
  lemma TrimAfterSpace(v: string)
    requires Trimmed(v)
    ensures Trim(" " + v) == v
  {
    var s := " " + v;
    assert s[1..] == v;
    assert LeadCount(s) == 1;
    if |v| > 0 {
      assert TrailCount(s) == 0;
    }
  }

  /** Trimming removes characters and adds none: a character absent before is absent after. */
  lemma TrimLacks(s: string, c: char)
    requires Lacks(s, c)
    ensures Lacks(Trim(s), c)
  {
    TrimSpec(s);
    var a := LeadCount(s);
    forall i | 0 <= i < |Trim(s)|
      ensures Trim(s)[i] != c
    {
      assert Trim(s)[i] == s[a + i];
    }
  }

  /** Neither end of `s` is a character `trim()` would remove. */
  predicate Trimmed(s: string) {
    |s| > 0 ==> !IsTrimChar(s[0]) && !IsTrimChar(s[|s| - 1])
  }

  function LowerAscii(c: char): char {
    if 'A' <= c <= 'Z' then (c as int + 32) as char else c
  }

  /** `String.equalsIgnoreCase` and Kotlin's `equals(other, ignoreCase = true)`, folding ASCII letters only. */
  predicate EqualsIgnoreCase(a: string, b: string) {
    |a| == |b| && (|a| == 0 || (LowerAscii(a[0]) == LowerAscii(b[0]) && EqualsIgnoreCase(a[1..], b[1..])))
  }

  lemma {:induction false} EqualsIgnoreCaseRefl(a: string)
    ensures EqualsIgnoreCase(a, a)
  {
    if |a| > 0 {
      EqualsIgnoreCaseRefl(a[1..]);
    }
  }

  /** No character of `s` is `c`. */
  predicate Lacks(s: string, c: char) {
    forall i :: 0 <= i < |s| ==> s[i] != c
  }

  /** Position of the first `c` in `s` at or after `from`, or -1. */
  function IndexFrom(s: string, c: char, from: nat): (k: int)
    decreases |s| - from
    ensures k == -1 || (from <= k < |s| && s[k] == c)
  {
    if from >= |s| then -1
    else if s[from] == c then from
    else IndexFrom(s, c, from + 1)
  }

  /** The position found is the first `c` at or after `from`; -1 means there is none. */
  lemma {:induction false} IndexFromSpec(s: string, c: char, from: nat)
    ensures IndexFrom(s, c, from) == -1 <==> forall i :: from <= i < |s| ==> s[i] != c
    ensures forall i :: from <= i < IndexFrom(s, c, from) ==> s[i] != c
    decreases |s| - from
  {
    if from < |s| && s[from] != c {
      IndexFromSpec(s, c, from + 1);
    }
  }

  /** Position of the first `c` in `s`, or -1 (`String.indexOf`). */
  function IndexOf(s: string, c: char): (k: int)
    ensures -1 <= k < |s|
    ensures k >= 0 ==> s[k] == c
  {
    IndexFrom(s, c, 0)
  }

  /** -1 exactly when `c` does not occur; otherwise no `c` comes before the position found. */
  lemma IndexOfSpec(s: string, c: char)
    ensures IndexOf(s, c) == -1 <==> Lacks(s, c)
    ensures IndexOf(s, c) >= 0 ==> Lacks(s[..IndexOf(s, c)], c)
  {
    IndexFromSpec(s, c, 0);
  }

  /** Kotlin's `split(delimiter)` for a one-character delimiter: every piece, empty ones included. */
  function Split(s: string, c: char): (parts: seq<string>)
    ensures |parts| >= 1
    decreases |s|
  {
    var k := IndexOf(s, c);
    if k < 0 then [s] else [s[..k]] + Split(s[k + 1..], c)
  }

  /** No piece contains the delimiter; without a delimiter the string is its own one piece. */
  lemma {:induction false} SplitSpec(s: string, c: char)
    ensures forall i :: 0 <= i < |Split(s, c)| ==> Lacks(Split(s, c)[i], c)
    ensures Lacks(s, c) ==> Split(s, c) == [s]
    ensures IndexOf(s, c) >= 0 ==> Split(s, c)[0] == s[..IndexOf(s, c)]
    decreases |s|
  {
    IndexOfSpec(s, c);
    var k := IndexOf(s, c);
    if k >= 0 {
      var rest := Split(s[k + 1..], c);
      SplitSpec(s[k + 1..], c);
      assert Split(s, c) == [s[..k]] + rest;
      forall i | 1 <= i < |Split(s, c)|
        ensures Lacks(Split(s, c)[i], c)
      {
        assert Split(s, c)[i] == rest[i - 1];
      }
    }
  }

  /** The search from `from` stops at the first `c` at or after `from`. */
  lemma {:induction false} IndexFromFirst(s: string, c: char, from: nat, k: nat)
    requires from <= k < |s| && s[k] == c
    requires forall i :: from <= i < k ==> s[i] != c
    ensures IndexFrom(s, c, from) == k
    decreases k - from
  {
    if from < k {
      IndexFromFirst(s, c, from + 1, k);
    }
  }

  /** A string made of two delimiter-free pieces around one delimiter splits into those pieces. */
  lemma SplitAround(a: string, b: string, c: char)
    requires Lacks(a, c) && Lacks(b, c)
    ensures Split(a + [c] + b, c) == [a, b]
  {
    var s := a + [c] + b;
    IndexFromFirst(s, c, 0, |a|);
    assert s[..|a|] == a && s[|a| + 1..] == b;
    SplitSpec(b, c);
  }

  /** Joining the pieces with the delimiter gives back the original string. */
  function Join(parts: seq<string>, c: char): string
    requires |parts| >= 1
  {
    if |parts| == 1 then parts[0] else parts[0] + [c] + Join(parts[1..], c)
  }

  lemma JoinOne(x: string, c: char)
    ensures Join([x], c) == x
  {
  }

  lemma JoinCons(first: string, rest: seq<string>, c: char)
    requires |rest| >= 1
    ensures Join([first] + rest, c) == first + [c] + Join(rest, c)
  {
    assert ([first] + rest)[1..] == rest;
  }

  /** `Split` taken one step: the piece before the first delimiter, then the split of what follows it. */
  lemma SplitUnfold(s: string, c: char)
    ensures IndexOf(s, c) < 0 ==> Split(s, c) == [s]
    ensures IndexOf(s, c) >= 0 ==> Split(s, c) == [s[..IndexOf(s, c)]] + Split(s[IndexOf(s, c) + 1..], c)
  {
  }

  lemma {:induction false} JoinSplit(s: string, c: char)
    ensures Join(Split(s, c), c) == s
    decreases |s|
  {
    hide *;
    SplitUnfold(s, c);
    var k := IndexOf(s, c);
    if k < 0 {
      JoinOne(s, c);
    } else {
      var rest := Split(s[k + 1..], c);
      JoinCons(s[..k], rest, c);
      JoinSplit(s[k + 1..], c);
      assert s[..k] + [c] + s[k + 1..] == s;
    }
  }
}
