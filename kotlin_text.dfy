/** The parts of Kotlin's `String` library the quiz uses: `joinToString`, `trim` and
    `equals(ignoreCase = true)`. Case folding and white space are ASCII-only here. */
module KotlinText {

  /** `parts.joinToString(sep)`: the parts in order, `sep` between neighbours. */
  function Join(parts: seq<string>, sep: string): string
  {
    if |parts| == 0 then "" else JoinFirst(parts, |parts|, sep)
  }

  /** The first `n` parts joined; built from the left, one part at a time. */
  function JoinFirst(parts: seq<string>, n: nat, sep: string): string
    requires 1 <= n <= |parts|
  {
    if n == 1 then parts[0] else JoinFirst(parts, n - 1, sep) + sep + parts[n - 1]
  }

  /** Joining depends only on the parts that are joined. */
  lemma {:induction false} JoinFirstPrefix(parts: seq<string>, other: seq<string>, n: nat, sep: string)
    requires 1 <= n <= |parts| && n <= |other| && parts[..n] == other[..n]
    ensures JoinFirst(parts, n, sep) == JoinFirst(other, n, sep)
  {
    assert parts[n - 1] == parts[..n][n - 1] == other[n - 1];
    if n > 1 {
      assert parts[..n - 1] == parts[..n][..n - 1];
      assert other[..n - 1] == other[..n][..n - 1];
      JoinFirstPrefix(parts, other, n - 1, sep);
    }
  }

  /** `s.contains(t)`: `t` occurs in `s` as a contiguous run. */
  predicate Contains(s: string, t: string)
  {
    exists i :: 0 <= i <= |s| && OccursAt(s, t, i)
  }

  /** `t` occurs in `s` starting at position `i`. */
  predicate OccursAt(s: string, t: string, i: int)
  {
    0 <= i <= |s| - |t| && s[i..i + |t|] == t
  }

  /** A string contains every infix of it. */
  lemma ContainsInfix(a: string, t: string, b: string)
    ensures Contains(a + t + b, t)
  {
    var s := a + t + b;
    assert OccursAt(s, t, |a|);
  }

  /** `Char.isWhitespace()` restricted to ASCII: tab, line feed, vertical tab, form feed,
      carriage return, the four information separators U+001C..U+001F and space. */
  predicate IsWhitespace(c: char)
  {
    c == ' ' || ('\t' <= c <= '\r') || ('\U{1C}' <= c <= '\U{1F}')
  }

  /** Drops the leading white space. */
  function TrimStart(s: string): (r: string)
    ensures |r| <= |s| && r == s[|s| - |r|..]
    ensures forall i :: 0 <= i < |s| - |r| ==> IsWhitespace(s[i])
    ensures r == [] || !IsWhitespace(r[0])
  {
    if |s| > 0 && IsWhitespace(s[0]) then TrimStart(s[1..]) else s
  }

  /** Drops the trailing white space. */
  function TrimEnd(s: string): (r: string)
    ensures |r| <= |s| && r == s[..|r|]
    ensures forall i :: |r| <= i < |s| ==> IsWhitespace(s[i])
    ensures r == [] || !IsWhitespace(r[|r| - 1])
  {
    if |s| > 0 && IsWhitespace(s[|s| - 1]) then TrimEnd(s[..|s| - 1]) else s
  }

  /** `s.trim()`: the longest infix of `s` that neither starts nor ends with white space. */
  function Trim(s: string): (r: string)
    ensures r == [] || (!IsWhitespace(r[0]) && !IsWhitespace(r[|r| - 1]))
    ensures (forall i :: 0 <= i < |s| ==> IsWhitespace(s[i])) ==> r == []
    ensures Unpadded(s) ==> r == s
  {
    var r := TrimEnd(TrimStart(s));
    assert r != [] ==> r[0] == TrimStart(s)[0];
    r
  }

  /** `r` is the infix of `s` at position `k`, and everything of `s` before and after it is
      white space. */
  predicate TrimmedAt(s: string, r: string, k: int)
  {
    && 0 <= k <= |s| - |r| && r == s[k..k + |r|]
    && (forall i :: 0 <= i < k ==> IsWhitespace(s[i]))
    && (forall i :: k + |r| <= i < |s| ==> IsWhitespace(s[i]))
  }

  /** `s.trim()` is an infix of `s`, and all it removes before and after it is white space. */
  lemma TrimRemovesWhitespace(s: string)
    ensures exists k :: TrimmedAt(s, Trim(s), k)
  {
    assert Trim(s) == TrimEnd(TrimStart(s));
    TrimmedInfix(s);
  }

  /** What trimming removes is white space: the trimmed text sits in `s` after the removed
      prefix, and the removed suffix follows it. */
  lemma TrimmedInfix(s: string)
    ensures TrimmedAt(s, TrimEnd(TrimStart(s)), |s| - |TrimStart(s)|)
  {
    var t := TrimStart(s);
    var r := TrimEnd(t);
    var k := |s| - |t|;
    assert t == s[k..];
    assert r == t[..|r|];
    assert s[k..k + |r|] == s[k..][..|r|];
    forall i | k + |r| <= i < |s| ensures IsWhitespace(s[i]) {
      assert s[i] == t[i - k];
    }
  }

  /** Neither the first nor the last character is white space. */
  predicate Unpadded(s: string)
  {
    |s| == 0 || (!IsWhitespace(s[0]) && !IsWhitespace(s[|s| - 1]))
  }

  /** `Char.uppercaseChar()` on ASCII letters. */
  function UpperChar(c: char): char
  {
    if 'a' <= c <= 'z' then (c as int - 32) as char else c
  }

  /** `Char.lowercaseChar()` on ASCII letters. */
  function LowerChar(c: char): char
  {
    if 'A' <= c <= 'Z' then (c as int + 32) as char else c
  }

  function Uppercase(s: string): (r: string)
    ensures |r| == |s| && forall i :: 0 <= i < |s| ==> r[i] == UpperChar(s[i])
  {
    seq(|s|, i requires 0 <= i < |s| => UpperChar(s[i]))
  }

  function Lowercase(s: string): (r: string)
    ensures |r| == |s| && forall i :: 0 <= i < |s| ==> r[i] == LowerChar(s[i])
  {
    seq(|s|, i requires 0 <= i < |s| => LowerChar(s[i]))
  }

  /** `a.equals(b, ignoreCase = true)`: same length, and position by position the
      characters are equal or have the same upper-case form. */
  predicate EqualsIgnoreCase(a: string, b: string)
  {
    |a| == |b| && forall i :: 0 <= i < |a| ==> a[i] == b[i] || UpperChar(a[i]) == UpperChar(b[i])
  }

  lemma CharFoldAgrees(x: char, y: char)
    ensures (x == y || UpperChar(x) == UpperChar(y)) <==> LowerChar(x) == LowerChar(y)
  {
  }

  /** Comparing ignoring case is comparing the lower-case forms. */
  lemma EqualsIgnoreCaseIsLowercaseEquality(a: string, b: string)
    ensures EqualsIgnoreCase(a, b) <==> Lowercase(a) == Lowercase(b)
  {
    if Lowercase(a) == Lowercase(b) {
      forall i | 0 <= i < |a| ensures a[i] == b[i] || UpperChar(a[i]) == UpperChar(b[i]) {
        assert Lowercase(a)[i] == Lowercase(b)[i];
        CharFoldAgrees(a[i], b[i]);
      }
    }
    if EqualsIgnoreCase(a, b) {
      forall i | 0 <= i < |a| ensures Lowercase(a)[i] == Lowercase(b)[i] {
        CharFoldAgrees(a[i], b[i]);
      }
    }
  }

  /** Comparing ignoring case is an equivalence. */
  lemma EqualsIgnoreCaseIsEquivalence(a: string, b: string, c: string)
    ensures EqualsIgnoreCase(a, a)
    ensures EqualsIgnoreCase(a, b) ==> EqualsIgnoreCase(b, a)
    ensures EqualsIgnoreCase(a, b) && EqualsIgnoreCase(b, c) ==> EqualsIgnoreCase(a, c)
  {
    EqualsIgnoreCaseIsLowercaseEquality(a, b);
    EqualsIgnoreCaseIsLowercaseEquality(b, c);
    EqualsIgnoreCaseIsLowercaseEquality(a, c);
  }

  /** A string matches its own upper-case and lower-case forms. */
  lemma EqualsIgnoreCaseOfCaseVariants(s: string)
    ensures EqualsIgnoreCase(s, Uppercase(s)) && EqualsIgnoreCase(Lowercase(s), s)
  {
    forall i | 0 <= i < |s| ensures UpperChar(s[i]) == UpperChar(UpperChar(s[i])) && UpperChar(LowerChar(s[i])) == UpperChar(s[i]) {
    }
  }
}
