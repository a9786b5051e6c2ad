/** The string operations the engine relies on: lower-casing, removal of
    every occurrence of a pattern (`str.replace(p, "")`) and the decimal
    rendering of an integer inside an f-string. */
module Text {

  // ---------------------------------------------------------------------
  // Letter case
  // ---------------------------------------------------------------------

  predicate IsUpper(c: char) { 'A' <= c <= 'Z' }
  predicate IsLower(c: char) { 'a' <= c <= 'z' }

  function LowerChar(c: char): char
  {
    if IsUpper(c) then (c as int + 32) as char else c
  }

  function UpperChar(c: char): char
  {
    if IsLower(c) then (c as int - 32) as char else c
  }

  /** Lower-casing of a string, character by character. */
  function Lower(s: string): (r: string)
    ensures |r| == |s|
    ensures forall i :: 0 <= i < |s| ==> r[i] == LowerChar(s[i])
  {
    if s == [] then [] else [LowerChar(s[0])] + Lower(s[1..])
  }

  /** `s` spells the lower-case word `w` with each letter in either case. */
  ghost predicate SpellsIgnoringCase(s: string, w: string)
  {
    |s| == |w| && forall i :: 0 <= i < |s| ==> s[i] == w[i] || s[i] == UpperChar(w[i])
  }

  /** For a word made of lower-case letters, comparing the lower-cased input
      with it accepts exactly the spellings of the word in mixed case. */
  lemma LowerEqualsWord(s: string, w: string)
    requires forall i :: 0 <= i < |w| ==> IsLower(w[i])
    ensures Lower(s) == w <==> SpellsIgnoringCase(s, w)
  {
    if Lower(s) == w {
      forall i | 0 <= i < |s| ensures s[i] == w[i] || s[i] == UpperChar(w[i]) {
        assert LowerChar(s[i]) == w[i];
      }
    }
    if SpellsIgnoringCase(s, w) {
      forall i | 0 <= i < |s| ensures Lower(s)[i] == w[i] {
        assert LowerChar(s[i]) == w[i];
      }
    }
  }

  // ---------------------------------------------------------------------
  // Slices of concatenations
  // ---------------------------------------------------------------------

  lemma ConcatSlices(a: string, b: string)
    ensures (a + b)[..|a|] == a && (a + b)[|a|..] == b
  {
  }

  lemma PrefixAndSuffix(s: string, h: string, m: string, t: string)
    requires s == h + m + t
    ensures |h| + |t| <= |s| && s[..|h|] == h && s[|s| - |t|..] == t
  {
    assert s == h + (m + t);
    ConcatSlices(h, m + t);
    ConcatSlices(h + m, t);
  }

  lemma SliceInside(s: string, h: string, a: string, f: string, b: string, t: string)
    requires s == h + (a + (f + b)) + t
    ensures |h| + |a| + |f| <= |s| && s[|h| + |a|..|h| + |a| + |f|] == f
  {
    assert s[|h| + |a|..|h| + |a| + |f|] == (a + (f + b))[|a|..|a| + |f|];
    assert (a + (f + b))[|a|..|a| + |f|] == (f + b)[..|f|];
  }

  // ---------------------------------------------------------------------
  // Concatenating one piece of text per element
  // ---------------------------------------------------------------------

  /** The texts `f(x)` of the elements, concatenated in order. */
  function ConcatMap<T>(xs: seq<T>, f: T -> string): string
    decreases |xs|
  {
    if xs == [] then "" else f(xs[0]) + ConcatMap(xs[1..], f)
  }

  /** Each element contributes its own text, whatever the elements around it. */
  lemma {:induction false} ConcatMapAppend<T>(a: seq<T>, b: seq<T>, f: T -> string)
    ensures ConcatMap(a + b, f) == ConcatMap(a, f) + ConcatMap(b, f)
    decreases |a|
  {
    if a == [] {
      assert a + b == b;
    } else {
      assert (a + b)[1..] == a[1..] + b;
      assert (a + b)[0] == a[0];
      ConcatMapAppend(a[1..], b, f);
    }
  }

  lemma ConcatMapSingleton<T>(x: T, f: T -> string)
    ensures ConcatMap([x], f) == f(x)
  {
    assert [x][1..] == [];
  }

  /** The text of the `k`-th element stands between those of the elements before and after it. */
  lemma ConcatMapAt<T>(xs: seq<T>, k: nat, f: T -> string)
    requires k < |xs|
    ensures ConcatMap(xs, f) == ConcatMap(xs[..k], f) + (f(xs[k]) + ConcatMap(xs[k + 1..], f))
  {
    var a, r := xs[..k], xs[k..];
    assert xs == a + r;
    ConcatMapAppend(a, r, f);
    assert r[1..] == xs[k + 1..];
  }

  /** Taking one more element appends its text. */
  lemma ConcatMapExtend<T>(xs: seq<T>, k: nat, f: T -> string)
    requires k < |xs|
    ensures ConcatMap(xs[..k + 1], f) == ConcatMap(xs[..k], f) + f(xs[k])
  {
    assert xs[..k + 1] == xs[..k] + [xs[k]];
    ConcatMapAppend(xs[..k], [xs[k]], f);
    ConcatMapSingleton(xs[k], f);
  }

  // ---------------------------------------------------------------------
  // Occurrences and removal
  // ---------------------------------------------------------------------

  predicate OccursAt(s: string, p: string, i: nat)
  {
    i + |p| <= |s| && s[i..i + |p|] == p
  }

  predicate Contains(s: string, p: string)
  {
    exists i: nat | i <= |s| :: OccursAt(s, p, i)
  }

  /** `s.replace(p, "")`: scanning left to right, every non-overlapping
      occurrence of `p` is dropped and every other character is kept. */
  function RemoveAll(s: string, p: string): (r: string)
    requires p != []
    ensures |r| <= |s|
    decreases |s|
  {
    if |s| < |p| then s
    else if s[..|p|] == p then RemoveAll(s[|p|..], p)
    else [s[0]] + RemoveAll(s[1..], p)
  }

  /** A string with no occurrence of the pattern is returned unchanged. */
  lemma {:induction false} RemoveAllAbsent(s: string, p: string)
    requires p != []
    requires !Contains(s, p)
    ensures RemoveAll(s, p) == s
    decreases |s|
  {
    if |s| >= |p| {
      assert !OccursAt(s, p, 0);
      assert s[..|p|] != p;
      if Contains(s[1..], p) {
        var i: nat :| i <= |s[1..]| && OccursAt(s[1..], p, i);
        assert s[1..][i..i + |p|] == s[i + 1..i + 1 + |p|];
        assert OccursAt(s, p, i + 1);
      }
      RemoveAllAbsent(s[1..], p);
    }
  }

  /** A string with an occurrence of the pattern always gets shorter. */
  lemma {:induction false} RemoveAllPresent(s: string, p: string)
    requires p != []
    requires Contains(s, p)
    ensures |RemoveAll(s, p)| < |s|
    decreases |s|
  {
    var i: nat :| i <= |s| && OccursAt(s, p, i);
    if s[..|p|] != p {
      assert i != 0;
      assert s[1..][i - 1..i - 1 + |p|] == s[i..i + |p|];
      assert OccursAt(s[1..], p, i - 1);
      RemoveAllPresent(s[1..], p);
    }
  }

  /** `s.replace(p, "")` leaves `s` as it is exactly when `p` does not occur in it. */
  lemma RemoveAllUnchangedIff(s: string, p: string)
    requires p != []
    ensures RemoveAll(s, p) == s <==> !Contains(s, p)
  {
    if Contains(s, p) { RemoveAllPresent(s, p); } else { RemoveAllAbsent(s, p); }
  }

  /** An occurrence in the tail of a string is an occurrence one place further on in the string. */
  lemma OccursInTail(s: string, p: string, i: nat)
    requires s != [] && OccursAt(s[1..], p, i)
    ensures OccursAt(s, p, i + 1)
  {
    assert s[1..][i..i + |p|] == s[i + 1..i + 1 + |p|];
  }

  /** A head `a` in which no occurrence of `p` starts, even one running on
      into `b`, is kept verbatim. */
  lemma {:induction false} RemoveAllKeepsCleanHead(a: string, b: string, p: string)
    requires p != []
    requires forall i: nat :: i < |a| ==> !OccursAt(a + b, p, i)
    ensures RemoveAll(a + b, p) == a + RemoveAll(b, p)
    decreases |a|
  {
    var s := a + b;
    if a == [] {
      assert s == b;
    } else if |s| < |p| {
      assert RemoveAll(b, p) == b;
    } else {
      assert !OccursAt(s, p, 0);
      assert s[1..] == a[1..] + b;
      forall i: nat | i < |a[1..]| ensures !OccursAt(a[1..] + b, p, i) {
        if OccursAt(a[1..] + b, p, i) {
          OccursInTail(s, p, i);
        }
      }
      RemoveAllKeepsCleanHead(a[1..], b, p);
      assert RemoveAll(s, p) == [s[0]] + (a[1..] + RemoveAll(b, p));
      assert [a[0]] + a[1..] == a;
    }
  }

  /** A trailing occurrence of `p` after a clean head is stripped: the head is what remains. */
  lemma StripsTrailingOccurrence(a: string, p: string)
    requires p != []
    requires forall i: nat :: i < |a| ==> !OccursAt(a + p, p, i)
    ensures RemoveAll(a + p, p) == a
  {
    RemoveAllKeepsCleanHead(a, p, p);
    assert p[..|p|] == p;
    assert RemoveAll(p, p) == RemoveAll(p[|p|..], p);
    assert p[|p|..] == [];
    assert a + [] == a;
  }

  /** Removal is a single left-to-right pass, so it can create a new
      occurrence: the removed copy of `p` may sit inside another one. */
  lemma RemovalCanLeaveOccurrence(p: string)
    requires |p| >= 2 && p[0] != p[1]
    ensures RemoveAll(p[..1] + p + p[1..], p) == p
    ensures Contains(RemoveAll(p[..1] + p + p[1..], p), p)
  {
    KeepsFirstOfNested(p);
    DropsLeadingCopy(p);
    assert [p[0]] + p[1..] == p;
    assert OccursAt(p, p, 0);
  }

  lemma KeepsFirstOfNested(p: string)
    requires |p| >= 2 && p[0] != p[1]
    ensures RemoveAll(p[..1] + p + p[1..], p) == [p[0]] + RemoveAll(p + p[1..], p)
  {
    var s := p[..1] + p + p[1..];
    assert s[1] == p[0] != p[1];
    assert s[..|p|] != p;
    RemoveAllKeepsHeadChar(s, p);
    assert s[1..] == p + p[1..];
  }

  lemma RemoveAllKeepsHeadChar(s: string, p: string)
    requires p != [] && |s| >= |p| && s[..|p|] != p
    ensures RemoveAll(s, p) == [s[0]] + RemoveAll(s[1..], p)
  {
  }

  lemma DropsLeadingCopy(p: string)
    requires |p| >= 2
    ensures RemoveAll(p + p[1..], p) == p[1..]
  {
    var t := p + p[1..];
    assert t[..|p|] == p;
    assert t[|p|..] == p[1..];
  }

  // ---------------------------------------------------------------------
  // Decimal rendering of integers (`str(n)` / f-string `{n}`)
  // ---------------------------------------------------------------------

  function DigitChar(d: nat): char
    requires d < 10
  {
    ('0' as int + d) as char
  }

  function DigitValue(c: char): int
  {
    c as int - '0' as int
  }

  function NatToString(n: nat): (r: string)
    ensures r != []
    ensures forall i :: 0 <= i < |r| ==> '0' <= r[i] <= '9'
    decreases n
  {
    if n < 10 then [DigitChar(n)] else NatToString(n / 10) + [DigitChar(n % 10)]
  }

  /** Python's `str(n)` for an `int`: a minus sign for negatives, then the digits. */
  function IntToString(n: int): string
  {
    if n < 0 then "-" + NatToString(-n) else NatToString(n)
  }

  function ParseNat(s: string): int
    decreases |s|
  {
    if s == [] then 0 else 10 * ParseNat(s[..|s| - 1]) + DigitValue(s[|s| - 1])
  }

  function ParseInt(s: string): int
  {
    if s != [] && s[0] == '-' then -ParseNat(s[1..]) else ParseNat(s)
  }

  lemma {:induction false} NatToStringRoundTrip(n: nat)
    ensures ParseNat(NatToString(n)) == n
    decreases n
  {
    if n >= 10 {
      var s := NatToString(n);
      assert s[..|s| - 1] == NatToString(n / 10);
      NatToStringRoundTrip(n / 10);
    }
  }

  /** The decimal text of an integer reads back as that integer. */
  lemma IntToStringRoundTrip(n: int)
    ensures ParseInt(IntToString(n)) == n
  {
    if n < 0 {
      NatToStringRoundTrip(-n);
      assert IntToString(n)[1..] == NatToString(-n);
    } else {
      NatToStringRoundTrip(n);
    }
  }

  // ---------------------------------------------------------------------
  // Double-quoted identifiers
  // ---------------------------------------------------------------------

  /** The text before the first double quote. */
  function UpToQuote(s: string): (r: string)
    ensures |r| <= |s|
  {
    if s == [] || s[0] == '"' then [] else [s[0]] + UpToQuote(s[1..])
  }

  /** An identifier without a double quote can be read back from behind its
      opening quote; one that holds a quote cannot. */
  lemma {:induction false} UpToQuoteOfIdentifier(x: string, rest: string)
    requires forall i :: 0 <= i < |x| ==> x[i] != '"'
    ensures UpToQuote(x + "\"" + rest) == x
  {
    if x != [] {
      assert (x + "\"" + rest)[1..] == x[1..] + "\"" + rest;
      UpToQuoteOfIdentifier(x[1..], rest);
    }
  }
}
