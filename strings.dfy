/**
 * The few JavaScript string operations the application relies on:
 * `toLowerCase`, `trim`, `includes`, `Array.prototype.join` and the
 * decimal rendering of a non-negative integer in a template literal.
 * Strings are sequences of characters; `.length` is the sequence length.
 */
module Strings {

  /** The capital letters folded: A-Z and the Latin-1 capitals À-Þ (except the sign ×). */
  predicate IsUpper(c: char) {
    'A' <= c <= 'Z' || ('\U{00C0}' <= c <= '\U{00DE}' && c != '\U{00D7}')
  }

  /** Lower-casing of one character: a capital moves to its small letter, 32 code points on. */
  function LowerChar(c: char): (r: char)
    ensures IsUpper(c) ==> r as int == c as int + 32 && !IsUpper(r)
    ensures !IsUpper(c) ==> r == c
  {
    if IsUpper(c) then (c as int + 32) as char else c
  }

  /** `s.toLowerCase()` */
  function Lower(s: string): (r: string)
    ensures |r| == |s|
    ensures forall i :: 0 <= i < |s| ==> r[i] == LowerChar(s[i])
  {
    if s == [] then [] else [LowerChar(s[0])] + Lower(s[1..])
  }

  /** Lower-casing twice is lower-casing once. */
  lemma LowerIdempotent(s: string)
    ensures Lower(Lower(s)) == Lower(s)
  {
  }

  /** The white-space characters that `trim` removes (ASCII white space and the no-break space). */
  predicate IsSpace(c: char) {
    c == ' ' || c == '\t' || c == '\n' || c == '\r' || c == '\U{000B}' || c == '\U{000C}' || c == '\U{00A0}'
  }

  function TrimStart(s: string): (r: string)
    ensures |r| <= |s| && r == s[|s| - |r|..]
    ensures r != [] ==> !IsSpace(r[0])
    ensures forall i :: 0 <= i < |s| - |r| ==> IsSpace(s[i])
  {
    if s != [] && IsSpace(s[0]) then TrimStart(s[1..]) else s
  }

  function TrimEnd(s: string): (r: string)
    ensures |r| <= |s| && r == s[..|r|]
    ensures r != [] ==> !IsSpace(r[|r| - 1])
    ensures forall i :: |r| <= i < |s| ==> IsSpace(s[i])
  {
    if s != [] && IsSpace(s[|s| - 1]) then TrimEnd(s[..|s| - 1]) else s
  }

  /** `s.trim()` */
  function Trim(s: string): string {
    TrimEnd(TrimStart(s))
  }

  /** Only white space (or nothing at all). */
  predicate IsBlank(s: string) {
    forall i :: 0 <= i < |s| ==> IsSpace(s[i])
  }

  /** `s.trim()` is empty exactly when `s` is blank. */
  lemma TrimEmptyIffBlank(s: string)
    ensures Trim(s) == "" <==> IsBlank(s)
  {
  }

  /** `s.includes(sub)` */
  predicate Contains(s: string, sub: string) {
    exists i | 0 <= i <= |s| - |sub| :: OccursAt(s, sub, i)
  }

  /** `sub` occurs in `s` starting at index `i`. */
  predicate OccursAt(s: string, sub: string, i: int) {
    0 <= i && i + |sub| <= |s| && s[i..i + |sub|] == sub
  }

  /** Whatever sits between a prefix and a suffix is contained in the whole. */
  lemma ContainsInfix(a: string, x: string, b: string)
    ensures Contains(a + x + b, x)
  {
    var s := a + x + b;
    assert OccursAt(s, x, |a|);
  }

  /** Text contained in a suffix is contained in the whole. */
  lemma ContainsInSuffix(p: string, s: string, x: string)
    requires Contains(s, x)
    ensures Contains(p + s, x)
  {
    var i :| 0 <= i <= |s| - |x| && OccursAt(s, x, i);
    assert (p + s)[|p| + i..|p| + i + |x|] == s[i..i + |x|];
    assert OccursAt(p + s, x, |p| + i);
  }

  /** Containment is transitive. */
  lemma ContainsTransitive(s: string, t: string, x: string)
    requires Contains(s, t) && Contains(t, x)
    ensures Contains(s, x)
  {
    var i :| 0 <= i <= |s| - |t| && OccursAt(s, t, i);
    var j :| 0 <= j <= |t| - |x| && OccursAt(t, x, j);
    forall m | 0 <= m < |x|
      ensures s[i + j..i + j + |x|][m] == x[m]
    {
      assert t[j..j + |x|][m] == x[m];
      assert s[i..i + |t|][j + m] == t[j + m];
    }
    assert OccursAt(s, x, i + j);
  }

  /** `xs.join(sep)` */
  function Join(sep: string, xs: seq<string>): (r: string)
    ensures xs == [] ==> r == ""
    ensures |xs| == 1 ==> r == xs[0]
  {
    if xs == [] then ""
    else if |xs| == 1 then xs[0]
    else xs[0] + sep + Join(sep, xs[1..])
  }

  /** Joining `x` in front of a non-empty list puts one separator after it. */
  lemma JoinCons(sep: string, x: string, xs: seq<string>)
    requires xs != []
    ensures Join(sep, [x] + xs) == x + sep + Join(sep, xs)
  {
    assert ([x] + xs)[1..] == xs;
  }

  lemma JoinThree(sep: string, a: string, b: string, c: string)
    ensures Join(sep, [a, b, c]) == a + sep + b + sep + c
  {
    JoinCons(sep, b, [c]);
    JoinCons(sep, a, [b, c]);
    assert [a] + [b, c] == [a, b, c];
  }

  lemma JoinFive(sep: string, a: string, b: string, c: string, d: string, e: string)
    ensures Join(sep, [a, b, c, d, e]) == a + sep + b + sep + c + sep + d + sep + e
  {
    JoinThree(sep, c, d, e);
    JoinCons(sep, b, [c, d, e]);
    assert [b] + [c, d, e] == [b, c, d, e];
    JoinCons(sep, a, [b, c, d, e]);
    assert [a] + [b, c, d, e] == [a, b, c, d, e];
  }

  lemma JoinSeven(sep: string, a: string, b: string, c: string, d: string, e: string, f: string, g: string)
    ensures Join(sep, [a, b, c, d, e, f, g]) == a + sep + b + sep + c + sep + d + sep + e + sep + f + sep + g
  {
    JoinFive(sep, c, d, e, f, g);
    JoinCons(sep, b, [c, d, e, f, g]);
    assert [b] + [c, d, e, f, g] == [b, c, d, e, f, g];
    JoinCons(sep, a, [b, c, d, e, f, g]);
    assert [a] + [b, c, d, e, f, g] == [a, b, c, d, e, f, g];
  }

  /** A joined list starts with its first element and ends with its last one. */
  lemma {:induction false} JoinFrame(sep: string, xs: seq<string>)
    requires xs != []
    ensures |Join(sep, xs)| >= |xs[0]| && |Join(sep, xs)| >= |xs[|xs| - 1]|
    ensures Join(sep, xs)[..|xs[0]|] == xs[0]
    ensures Join(sep, xs)[|Join(sep, xs)| - |xs[|xs| - 1]|..] == xs[|xs| - 1]
  {
    if |xs| > 1 {
      JoinFrame(sep, xs[1..]);
      var rest := Join(sep, xs[1..]);
      assert Join(sep, xs) == xs[0] + (sep + rest);
      assert xs[1..][|xs[1..]| - 1] == xs[|xs| - 1];
    }
  }

  /** Every element of a joined list occurs in the joined text. */
  lemma {:induction false} JoinContainsEach(sep: string, xs: seq<string>, k: nat)
    requires k < |xs|
    ensures exists a, b :: Join(sep, xs) == a + xs[k] + b
  {
    if |xs| == 1 {
      assert Join(sep, xs) == "" + xs[k] + "";
    } else if k == 0 {
      assert Join(sep, xs) == "" + xs[0] + (sep + Join(sep, xs[1..]));
    } else {
      JoinContainsEach(sep, xs[1..], k - 1);
      var a, b :| Join(sep, xs[1..]) == a + xs[1..][k - 1] + b;
      assert Join(sep, xs) == (xs[0] + sep + a) + xs[k] + b;
    }
  }

  /** What sits inside one element of a joined list is contained in the joined text. */
  lemma JoinKeepsInfix(sep: string, xs: seq<string>, k: nat, pre: string, x: string, post: string)
    requires k < |xs| && xs[k] == pre + x + post
    ensures Contains(Join(sep, xs), x)
  {
    JoinContainsEach(sep, xs, k);
    var a, b :| Join(sep, xs) == a + xs[k] + b;
    assert Join(sep, xs) == (a + pre) + x + (post + b);
    ContainsInfix(a + pre, x, post + b);
  }

  /** The decimal digits of `n`, most significant first, no leading zero. */
  function DecimalString(n: nat): (r: string)
    ensures r != []
    ensures forall i :: 0 <= i < |r| ==> '0' <= r[i] <= '9'
    decreases n
  {
    if n < 10 then [('0' as int + n) as char]
    else DecimalString(n / 10) + [('0' as int + n % 10) as char]
  }

  /** The number a string of decimal digits denotes. */
  function DecimalValue(s: string): nat
    requires forall i :: 0 <= i < |s| ==> '0' <= s[i] <= '9'
  {
    if s == [] then 0
    else 10 * DecimalValue(s[..|s| - 1]) + (s[|s| - 1] as int - '0' as int)
  }

  /** Reading back the decimal rendering of `n` gives `n`: rendering is injective. */
  lemma {:induction false} DecimalRoundTrip(n: nat)
    ensures DecimalValue(DecimalString(n)) == n
    decreases n
  {
    var s := DecimalString(n);
    if n >= 10 {
      DecimalRoundTrip(n / 10);
      assert s[..|s| - 1] == DecimalString(n / 10);
    }
  }
}
