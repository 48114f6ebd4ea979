/**
  The part of JavaScript's String.prototype.trim that the page controller relies on:
  stripping white space and line terminators from both ends of a form value.

  The trimming functions and their lemmas take the white-space test `ws` as a parameter
  and hold for any such test; `Trim` applies them with the ECMAScript set `IsSpace`.
 */
module Text {

  /** The ECMAScript WhiteSpace and LineTerminator code points, which trim removes. */
  predicate IsSpace(c: char) {
    || c == '\t' || c == '\n' || c == '\U{000B}' || c == '\U{000C}' || c == '\r'
    || c == ' ' || c == '\U{00A0}' || c == '\U{1680}'
    || ('\U{2000}' <= c <= '\U{200A}')
    || c == '\U{2028}' || c == '\U{2029}' || c == '\U{202F}' || c == '\U{205F}'
    || c == '\U{3000}' || c == '\U{FEFF}'
  }

  predicate AllSpace(ws: char -> bool, s: string) {
    forall i :: 0 <= i < |s| ==> ws(s[i])
  }

  /** Drops the leading white space: the result is a suffix of `s` that starts with a non-space. */
  function TrimStart(ws: char -> bool, s: string): (r: string)
    ensures |r| <= |s| && r == s[|s| - |r|..]
    ensures r == [] || !ws(r[0])
  {
    if |s| > 0 && ws(s[0]) then
      var r := TrimStart(ws, s[1..]);
      assert s[1..][|s| - 1 - |r|..] == s[|s| - |r|..];
      r
    else
      s
  }

  /** What TrimStart drops is white space. */
  lemma {:induction false} TrimStartDropsSpace(ws: char -> bool, s: string)
    ensures AllSpace(ws, s[..|s| - |TrimStart(ws, s)|])
  {
    if |s| > 0 && ws(s[0]) {
      TrimStartDropsSpace(ws, s[1..]);
      var n := |s| - |TrimStart(ws, s)|;
      assert s[..n] == [s[0]] + s[1..][..n - 1];
    }
  }

  /** Drops the trailing white space: the result is a prefix of `s` that ends with a non-space. */
  function TrimEnd(ws: char -> bool, s: string): (r: string)
    ensures |r| <= |s| && r == s[..|r|]
    ensures r == [] || !ws(r[|r| - 1])
  {
    if |s| > 0 && ws(s[|s| - 1]) then TrimEnd(ws, s[..|s| - 1]) else s
  }

  /** What TrimEnd drops is white space. */
  lemma {:induction false} TrimEndDropsSpace(ws: char -> bool, s: string)
    ensures AllSpace(ws, s[|TrimEnd(ws, s)|..])
  {
    if |s| > 0 && ws(s[|s| - 1]) {
      TrimEndDropsSpace(ws, s[..|s| - 1]);
      var n := |TrimEnd(ws, s)|;
      assert s[n..] == s[..|s| - 1][n..] + [s[|s| - 1]];
    }
  }

  /** Both ends trimmed. */
  function TrimBoth(ws: char -> bool, s: string): (r: string)
    ensures |r| <= |s|
    ensures r == [] || (!ws(r[0]) && !ws(r[|r| - 1]))
  {
    TrimEnd(ws, TrimStart(ws, s))
  }

  /** `s.trim()`: empty exactly for an all-white-space value, otherwise with non-space ends. */
  function Trim(s: string): (r: string)
    ensures |r| <= |s|
    ensures r == [] <==> AllSpace(IsSpace, s)
    ensures r == [] || (!IsSpace(r[0]) && !IsSpace(r[|r| - 1]))
  {
    TrimEmptyIff(IsSpace, s);
    TrimBoth(IsSpace, s)
  }

  /** Trimming removes a white-space prefix and a white-space suffix and keeps what is between. */
  lemma TrimIsInfix(ws: char -> bool, s: string) returns (i: nat, j: nat)
    ensures i <= j <= |s| && TrimBoth(ws, s) == s[i..j]
    ensures AllSpace(ws, s[..i]) && AllSpace(ws, s[j..])
  {
    var t := TrimStart(ws, s);
    var r := TrimEnd(ws, t);
    TrimStartDropsSpace(ws, s);
    TrimEndDropsSpace(ws, t);
    i := |s| - |t|;
    j := i + |r|;
    assert t == s[i..];
    assert r == t[..|r|] == s[i..j];
    assert s[j..] == t[|r|..];
  }

  lemma TrimStartEmptyIff(ws: char -> bool, s: string)
    ensures TrimStart(ws, s) == [] <==> AllSpace(ws, s)
  {
    var r := TrimStart(ws, s);
    if r != [] {
      assert r[0] == s[|s| - |r|];
    } else {
      TrimStartDropsSpace(ws, s);
      assert s[..|s|] == s;
    }
  }

  lemma TrimEndEmptyIff(ws: char -> bool, s: string)
    ensures TrimEnd(ws, s) == [] <==> AllSpace(ws, s)
  {
    var r := TrimEnd(ws, s);
    if r != [] {
      assert r[|r| - 1] == s[|r| - 1];
    } else {
      TrimEndDropsSpace(ws, s);
      assert s[0..] == s;
    }
  }

  /** Trimming yields the empty string exactly when the whole value is white space. */
  lemma TrimEmptyIff(ws: char -> bool, s: string)
    ensures TrimBoth(ws, s) == [] <==> AllSpace(ws, s)
  {
    TrimStartEmptyIff(ws, s);
    TrimEndEmptyIff(ws, TrimStart(ws, s));
  }

  /** A white-space prefix, middle and suffix make a white-space string. */
  lemma AllSpaceSplit(ws: char -> bool, s: string, i: nat, j: nat)
    requires i <= j <= |s|
    requires AllSpace(ws, s[..i]) && AllSpace(ws, s[i..j]) && AllSpace(ws, s[j..])
    ensures AllSpace(ws, s)
  {
    forall k | 0 <= k < |s| ensures ws(s[k]) {
      if k < i {
        assert s[k] == s[..i][k];
      } else if k < j {
        assert s[k] == s[i..j][k - i];
      } else {
        assert s[k] == s[j..][k - j];
      }
    }
  }

  /**
    Trimming is determined by its two margins: if `s[i..j]` is surrounded by white space and
    is empty or has non-space ends, then it is what trimming `s` leaves.
   */
  lemma TrimUnique(ws: char -> bool, s: string, i: nat, j: nat)
    requires i <= j <= |s|
    requires AllSpace(ws, s[..i]) && AllSpace(ws, s[j..])
    requires i == j || (!ws(s[i]) && !ws(s[j - 1]))
    ensures TrimBoth(ws, s) == s[i..j]
  {
    if i < j {
      TrimStartUnique(ws, s, i, j);
      TrimEndOfSuffix(ws, s, i, j);
    } else {
      assert s[i..j] == [];
      AllSpaceSplit(ws, s, i, j);
      TrimEmptyIff(ws, s);
    }
  }

  lemma TrimEndOfSuffix(ws: char -> bool, s: string, i: nat, j: nat)
    requires i < j <= |s|
    requires AllSpace(ws, s[j..]) && !ws(s[j - 1])
    ensures TrimEnd(ws, s[i..]) == s[i..j]
  {
    var t := s[i..];
    assert t[j - i..] == s[j..];
    assert t[j - i - 1] == s[j - 1];
    TrimEndUnique(ws, t, j - i);
    assert t[..j - i] == s[i..j];
  }

  lemma {:induction false} TrimStartUnique(ws: char -> bool, s: string, i: nat, j: nat)
    requires i < j <= |s|
    requires AllSpace(ws, s[..i]) && !ws(s[i])
    ensures TrimStart(ws, s) == s[i..]
  {
    if i > 0 {
      assert ws(s[..i][0]);
      assert s[1..][..i - 1] == s[..i][1..];
      TrimStartUnique(ws, s[1..], i - 1, j - 1);
      assert s[1..][i - 1..] == s[i..];
    }
  }

  lemma {:induction false} TrimEndUnique(ws: char -> bool, t: string, n: nat)
    requires 0 < n <= |t|
    requires AllSpace(ws, t[n..]) && !ws(t[n - 1])
    ensures TrimEnd(ws, t) == t[..n]
  {
    if n < |t| {
      assert ws(t[n..][|t| - 1 - n]);
      var u := t[..|t| - 1];
      assert u[n..] == t[n..][..|t| - 1 - n];
      TrimEndUnique(ws, u, n);
      assert u[..n] == t[..n];
    }
  }

  /** Trimming a trimmed value changes nothing. */
  lemma TrimIdempotent(ws: char -> bool, s: string)
    ensures TrimBoth(ws, TrimBoth(ws, s)) == TrimBoth(ws, s)
  {
    var r := TrimBoth(ws, s);
    if r != [] {
      assert r[..0] == [] && r[|r|..] == [];
      TrimUnique(ws, r, 0, |r|);
      assert r[0..|r|] == r;
    } else {
      TrimEmptyIff(ws, r);
    }
  }
}
