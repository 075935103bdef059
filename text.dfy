/** The two string operations of Python that the chat bot applies to text:
    `str.lower()` and `str.strip()` with no argument. Both are modelled on
    ASCII only: `Lower` folds the letters A-Z and leaves every other
    character alone, and `IsSpace` is `str.isspace()` restricted to the
    ASCII range (tab, line feed, vertical tab, form feed, carriage return,
    the four separators 0x1C-0x1F, and the space). */
module AsciiText {

  /** `c.isspace()` for an ASCII character. */
  predicate IsSpace(c: char)
    ensures IsSpace(c) <==> c in " \t\n\r" || c as int in {0x0B, 0x0C, 0x1C, 0x1D, 0x1E, 0x1F}
  {
    c == ' ' || (9 <= c as int <= 13) || (28 <= c as int <= 31)
  }

  predicate AllSpace(s: string) {
    forall i :: 0 <= i < |s| ==> IsSpace(s[i])
  }

  /** True when `s` has no whitespace at either end: what `strip` leaves. */
  predicate Trimmed(s: string) {
    s == [] || (!IsSpace(s[0]) && !IsSpace(s[|s| - 1]))
  }

  function LowerChar(c: char): (d: char)
    ensures 'A' <= c <= 'Z' ==> 'a' <= d <= 'z' && d as int - c as int == 32
    ensures !('A' <= c <= 'Z') ==> d == c
    ensures !('A' <= d <= 'Z')
    ensures IsSpace(d) <==> IsSpace(c)
  {
    if 'A' <= c <= 'Z' then (c as int + 32) as char else c
  }

  /** `s.lower()`: every character folded on its own, length unchanged. */
  function Lower(s: string): (r: string)
    ensures |r| == |s|
    ensures forall i :: 0 <= i < |s| ==> r[i] == LowerChar(s[i])
  {
    if s == [] then [] else [LowerChar(s[0])] + Lower(s[1..])
  }

  /** Number of whitespace characters at the start of `s`. */
  function LeadingSpaces(s: string): (n: nat)
    ensures n <= |s|
    ensures AllSpace(s[..n])
    ensures n < |s| ==> !IsSpace(s[n])
  {
    if s != [] && IsSpace(s[0]) then 1 + LeadingSpaces(s[1..]) else 0
  }

  /** Number of whitespace characters at the end of `s`. */
  function TrailingSpaces(s: string): (n: nat)
    ensures n <= |s|
    ensures AllSpace(s[|s| - n..])
    ensures n < |s| ==> !IsSpace(s[|s| - n - 1])
  {
    if s != [] && IsSpace(s[|s| - 1]) then 1 + TrailingSpaces(s[..|s| - 1]) else 0
  }

  /** `s.strip()`: `s` without its leading and trailing whitespace. */
  function Strip(s: string): (r: string)
    ensures Trimmed(r)
    ensures |r| <= |s|
    ensures r == [] <==> AllSpace(s)
  {
    var t := s[LeadingSpaces(s)..];
    assert AllSpace(s) <== t == [];
    t[..|t| - TrailingSpaces(t)]
  }

  /** The decomposition `Strip` performs: whitespace, the result, whitespace. */
  lemma StripSplits(s: string)
    ensures exists i ::
              && 0 <= i <= |s| - |Strip(s)|
              && s == s[..i] + Strip(s) + s[i + |Strip(s)|..]
              && AllSpace(s[..i]) && AllSpace(s[i + |Strip(s)|..])
  {
    var i := LeadingSpaces(s);
    var t := s[i..];
    var j := |t| - TrailingSpaces(t);
    var w := t[..j];
    assert Strip(s) == w && |w| == j;
    assert s[i + j..] == t[j..];
    assert AllSpace(s[..i]) && AllSpace(s[i + j..]);
    assert s == s[..i] + w + s[i + j..];
  }

  /** The decomposition is unique: whatever trimmed text sits between two
      runs of whitespace is exactly what `Strip` returns. */
  lemma {:induction false} StripUnique(a: string, w: string, b: string)
    requires AllSpace(a) && AllSpace(b) && Trimmed(w)
    ensures Strip(a + w + b) == w
  {
    var s := a + w + b;
    if w == [] {
      assert s == a + b;
      assert AllSpace(s);
    } else {
      LeadingOfPadded(a, w + b);
      assert s == a + (w + b);
      var t := s[|a|..];
      assert t == w + b;
      TrailingOfPadded(w, b);
      assert t[..|t| - |b|] == w;
    }
  }

  lemma {:induction false} LeadingOfPadded(a: string, v: string)
    requires AllSpace(a) && v != [] && !IsSpace(v[0])
    ensures LeadingSpaces(a + v) == |a|
  {
    if a != [] {
      assert (a + v)[1..] == a[1..] + v;
      LeadingOfPadded(a[1..], v);
    }
  }

  lemma {:induction false} TrailingOfPadded(v: string, b: string)
    requires AllSpace(b) && v != [] && !IsSpace(v[|v| - 1])
    ensures TrailingSpaces(v + b) == |b|
  {
    if b != [] {
      assert (v + b)[..|v + b| - 1] == v + b[..|b| - 1];
      TrailingOfPadded(v, b[..|b| - 1]);
    }
  }

  /** Text that is not all whitespace splits into a part ending in a
      non-whitespace character and a whitespace tail. */
  lemma SplitTrailing(s: string) returns (x: string, t: string)
    requires !AllSpace(s)
    ensures s == x + t && AllSpace(t)
    ensures x != [] && !IsSpace(x[|x| - 1])
  {
    var n := TrailingSpaces(s);
    x, t := s[..|s| - n], s[|s| - n..];
    assert s == x + t;
    assert forall i :: |s| - n <= i < |s| ==> IsSpace(s[i]) by {
      forall i | |s| - n <= i < |s| ensures IsSpace(s[i]) {
        assert s[i] == s[|s| - n..][i - (|s| - n)];
      }
    }
  }

  lemma TrimmedConcat(u: string, v: string)
    requires u != [] && !IsSpace(u[0]) && v != [] && !IsSpace(v[|v| - 1])
    ensures Trimmed(u + v)
  {
    assert (u + v)[0] == u[0];
    assert (u + v)[|u + v| - 1] == v[|v| - 1];
  }

  lemma LowerConcat(x: string, y: string)
    ensures Lower(x + y) == Lower(x) + Lower(y)
  {
  }

  lemma LowerKeepsSpacing(s: string)
    ensures AllSpace(Lower(s)) <==> AllSpace(s)
    ensures Trimmed(Lower(s)) <==> Trimmed(s)
  {
  }

  /** Lower-casing then stripping (the order the chat bot uses) equals
      stripping then lower-casing, because folding never turns whitespace
      into text or text into whitespace. */
  lemma LowerStripCommute(s: string)
    ensures Strip(Lower(s)) == Lower(Strip(s))
  {
    StripSplits(s);
    var i :|
      && 0 <= i <= |s| - |Strip(s)|
      && s == s[..i] + Strip(s) + s[i + |Strip(s)|..]
      && AllSpace(s[..i]) && AllSpace(s[i + |Strip(s)|..]);
    var a, w, b := s[..i], Strip(s), s[i + |Strip(s)|..];
    LowerConcat(a + w, b);
    LowerConcat(a, w);
    LowerKeepsSpacing(a);
    LowerKeepsSpacing(w);
    LowerKeepsSpacing(b);
    StripUnique(Lower(a), Lower(w), Lower(b));
  }
}
