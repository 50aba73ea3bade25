/** Shared vocabulary of the ledger model: optional values, route results, the
    `YYYY-MM-DD` date shape every admin route checks, and the few string
    operations (ASCII lower-casing, trimming, substring search) the pages use. */
module Common {

  datatype Option<T> = None | Some(value: T)

  /** A route's outcome: a value, or an HTTP status with its message. */
  datatype Result<T> = Ok(value: T) | Err(status: int, message: string)

  /** A calendar day, as the number YYYYMMDD of its `YYYY-MM-DD` text. For
      well-formed texts this number orders days exactly as the source's string
      comparisons do. */
  type Date = int

  predicate IsDigit(c: char) { '0' <= c <= '9' }

  function DigitValue(c: char): (v: nat)
    requires IsDigit(c)
    ensures v <= 9
  {
    (c as int) - ('0' as int)
  }

  predicate AllDigits(s: string) { forall i :: 0 <= i < |s| ==> IsDigit(s[i]) }

  /** Decimal value of a run of digits (most significant first). */
  function DigitsValue(s: string): (v: nat)
    requires AllDigits(s)
  {
    if |s| == 0 then 0 else DigitsValue(s[..|s| - 1]) * 10 + DigitValue(s[|s| - 1])
  }

  /** The length of the run of digits that starts `s`. */
  function RunLength(s: string): (n: nat)
    ensures n <= |s| && AllDigits(s[..n])
    ensures n < |s| ==> !IsDigit(s[n])
  {
    if |s| > 0 && IsDigit(s[0]) then
      var n := 1 + RunLength(s[1..]);
      assert s[..n] == [s[0]] + s[1..][..n - 1];
      n
    else 0
  }

  /** Digits followed by a non-digit, or by nothing, form one whole run. */
  lemma {:induction false} RunOfDigits(d: string, t: string)
    requires AllDigits(d) && (|t| == 0 || !IsDigit(t[0]))
    ensures RunLength(d + t) == |d|
    decreases |d|
  {
    if |d| > 0 {
      assert (d + t)[1..] == d[1..] + t;
      RunOfDigits(d[1..], t);
    }
  }

  function DigitChar(d: nat): (c: char)
    requires d <= 9
    ensures IsDigit(c) && DigitValue(c) == d
  {
    ('0' as int + d) as char
  }

  /** `String(n)` for a whole number: its decimal digits, most significant
      first, without leading zeros. Reading them back gives `n`. */
  function Decimal(n: nat): (s: string)
    ensures |s| > 0 && AllDigits(s) && DigitsValue(s) == n
    ensures |s| > 1 ==> s[0] != '0'
  {
    if n < 10 then [DigitChar(n)]
    else
      var s := Decimal(n / 10) + [DigitChar(n % 10)];
      assert s[..|s| - 1] == Decimal(n / 10);
      s
  }

  /** The test `/^\d{4}-\d{2}-\d{2}$/`: four digits, dash, two digits, dash, two
      digits, and nothing else. It checks the shape only, not the calendar. */
  predicate IsIsoDate(s: string) {
    |s| == 10 && s[4] == '-' && s[7] == '-' &&
    AllDigits(s[0..4]) && AllDigits(s[5..7]) && AllDigits(s[8..10])
  }

  /** The day a well-formed date text names. */
  function DateOf(s: string): (d: Date)
    requires IsIsoDate(s)
  {
    DigitsValue(s[0..4]) * 10000 + DigitsValue(s[5..7]) * 100 + DigitsValue(s[8..10])
  }

  /** ASCII lower-casing; the texts the model lower-cases (status words, dates,
      product titles, search keys) are compared in ASCII. */
  function LowerChar(c: char): char {
    if 'A' <= c <= 'Z' then (c as int + 32) as char else c
  }

  function Lower(s: string): (r: string)
    ensures |r| == |s|
    ensures forall i :: 0 <= i < |s| ==> r[i] == LowerChar(s[i])
  {
    if |s| == 0 then "" else [LowerChar(s[0])] + Lower(s[1..])
  }

  /** The white space that `String.prototype.trim` and the `\s` class remove. */
  predicate IsSpace(c: char) {
    c == ' ' || c == '\t' || c == '\n' || c == '\r' || c == '\U{000B}' || c == '\U{000C}' ||
    c == '\U{00A0}' || c == '\U{1680}' || ('\U{2000}' <= c <= '\U{200A}') ||
    c == '\U{2028}' || c == '\U{2029}' || c == '\U{202F}' || c == '\U{205F}' ||
    c == '\U{3000}' || c == '\U{FEFF}'
  }

  /** `trimStart`: the text without its leading white space, and only that. */
  function TrimStart(s: string): (r: string)
    ensures |r| <= |s| && r == s[|s| - |r|..]
    ensures forall i :: 0 <= i < |s| - |r| ==> IsSpace(s[i])
    ensures r != [] ==> !IsSpace(r[0])
  {
    if |s| > 0 && IsSpace(s[0]) then TrimStart(s[1..]) else s
  }

  /** A text that does not start with white space is kept as it is. */
  lemma TrimStartKeeps(s: string)
    requires |s| == 0 || !IsSpace(s[0])
    ensures TrimStart(s) == s
  {
  }

  /** `trimEnd`: the text without its trailing white space, and only that. */
  function TrimEnd(s: string): (r: string)
    ensures |r| <= |s| && r == s[..|r|]
    ensures forall i :: |r| <= i < |s| ==> IsSpace(s[i])
    ensures r != [] ==> !IsSpace(r[|r| - 1])
  {
    if |s| > 0 && IsSpace(s[|s| - 1]) then TrimEnd(s[..|s| - 1]) else s
  }

  function Trim(s: string): string { TrimEnd(TrimStart(s)) }

  /** One character at the front: white space goes, anything else stops the
      trimming. */
  lemma TrimStartStep(c: char, s: string)
    ensures TrimStart([c] + s) == if IsSpace(c) then TrimStart(s) else [c] + s
  {
    assert ([c] + s)[1..] == s;
  }

  /** One character at the end, likewise. */
  lemma TrimEndStep(s: string, c: char)
    ensures TrimEnd(s + [c]) == if IsSpace(c) then TrimEnd(s) else s + [c]
  {
    assert (s + [c])[..|s|] == s;
  }

  predicate IsPrefix(p: string, s: string) { |p| <= |s| && s[..|p|] == p }

  /** `s.includes(key)`. */
  predicate Contains(s: string, key: string) {
    exists i :: 0 <= i <= |s| && IsPrefix(key, s[i..])
  }

  /** Trimming a text that is nothing but white space leaves it empty. */
  lemma {:induction false} TrimAllSpace(s: string)
    requires forall i :: 0 <= i < |s| ==> IsSpace(s[i])
    ensures Trim(s) == ""
  {
    if |s| > 0 {
      TrimAllSpace(s[1..]);
    }
  }

  predicate AllSpace(s: string) { forall i :: 0 <= i < |s| ==> IsSpace(s[i]) }

  /** White space before a text that starts with something else is trimmed
      away. */
  lemma {:induction false} TrimStartPadded(a: string, t: string)
    requires AllSpace(a) && |t| > 0 && !IsSpace(t[0])
    ensures TrimStart(a + t) == t
    decreases |a|
  {
    if |a| == 0 {
      assert a + t == [] + t;
      TrimStartStep(t[0], t[1..]);
      assert [t[0]] + t[1..] == t;
    } else {
      assert a + t == [a[0]] + (a[1..] + t);
      TrimStartStep(a[0], a[1..] + t);
      TrimStartPadded(a[1..], t);
    }
  }

  /** White space after a text that ends with something else is trimmed
      away. */
  lemma {:induction false} TrimEndPadded(t: string, b: string)
    requires AllSpace(b) && |t| > 0 && !IsSpace(t[|t| - 1])
    ensures TrimEnd(t + b) == t
    decreases |b|
  {
    if |b| == 0 {
      assert t + b == t[..|t| - 1] + [t[|t| - 1]];
      TrimEndStep(t[..|t| - 1], t[|t| - 1]);
    } else {
      var i := |b| - 1;
      assert t + b == (t + b[..i]) + [b[i]];
      TrimEndStep(t + b[..i], b[i]);
      TrimEndPadded(t, b[..i]);
    }
  }

  /** `trim` removes exactly the white space around a text. */
  lemma TrimPadded(a: string, t: string, b: string)
    requires AllSpace(a) && AllSpace(b) && |t| > 0 && !IsSpace(t[0]) && !IsSpace(t[|t| - 1])
    ensures Trim(a + t + b) == t
  {
    assert a + t + b == a + (t + b);
    TrimStartPadded(a, t + b);
    TrimEndPadded(t, b);
  }

  /** Lower-casing works character by character. */
  lemma LowerAppend(a: string, b: string)
    ensures Lower(a + b) == Lower(a) + Lower(b)
  {
  }

  /** White space has no case. */
  lemma LowerSpace(a: string)
    requires AllSpace(a)
    ensures Lower(a) == a
  {
  }

  // ---------------------------------------------------------------------------
  // Ordering texts.

  /** `a` sorts before `b` character by character, by character code, a proper
      prefix first: the order of `ORDER BY` on text under the C collation. */
  predicate TextBefore(a: string, b: string)
    decreases |a|
  {
    |b| > 0 && (|a| == 0 || a[0] < b[0] || (a[0] == b[0] && TextBefore(a[1..], b[1..])))
  }

  lemma {:induction false} TextBeforeIrreflexive(a: string)
    ensures !TextBefore(a, a)
    decreases |a|
  {
    if |a| > 0 {
      TextBeforeIrreflexive(a[1..]);
    }
  }

  lemma {:induction false} TextBeforeTransitive(a: string, b: string, c: string)
    requires TextBefore(a, b) && TextBefore(b, c)
    ensures TextBefore(a, c)
    decreases |a|
  {
    if |a| > 0 && a[0] == b[0] && b[0] == c[0] {
      TextBeforeTransitive(a[1..], b[1..], c[1..]);
    }
  }

  /** Two different texts are always ordered one way or the other. */
  lemma {:induction false} TextBeforeTotal(a: string, b: string)
    requires a != b
    ensures TextBefore(a, b) || TextBefore(b, a)
    decreases |a|
  {
    if |a| > 0 && |b| > 0 && a[0] == b[0] {
      assert a == [a[0]] + a[1..] && b == [b[0]] + b[1..];
      TextBeforeTotal(a[1..], b[1..]);
    }
  }

  /** Of two texts at most one comes before the other. */
  lemma TextBeforeAsymmetric(a: string, b: string)
    requires TextBefore(a, b)
    ensures !TextBefore(b, a)
  {
    if TextBefore(b, a) {
      TextBeforeTransitive(a, b, a);
      TextBeforeIrreflexive(a);
    }
  }

  /** "Not before" is transitive too: it is "after or equal". */
  lemma NotBeforeTransitive(a: string, b: string, c: string)
    requires !TextBefore(a, b) && !TextBefore(b, c)
    ensures !TextBefore(a, c)
  {
    if a != b { TextBeforeTotal(a, b); }
    if b != c { TextBeforeTotal(b, c); }
    if a != b && b != c {
      TextBeforeTransitive(c, b, a);
      TextBeforeAsymmetric(c, a);
    }
  }

  /** Strictly ascending in that order. */
  predicate Ascending(s: seq<string>) {
    forall i, j :: 0 <= i < j < |s| ==> TextBefore(s[i], s[j])
  }

  lemma AscendingCons(a: string, rest: seq<string>)
    requires Ascending(rest)
    requires forall y :: y in rest ==> TextBefore(a, y)
    ensures Ascending([a] + rest)
  {
    var r := [a] + rest;
    forall i, j | 0 <= i < j < |r| ensures TextBefore(r[i], r[j]) {
      assert r[j] == rest[j - 1];
      if i > 0 {
        assert r[i] == rest[i - 1];
      }
    }
  }

  /** The head of an ascending sequence comes before the rest, which is
      ascending too. */
  lemma AscendingTail(s: seq<string>)
    requires Ascending(s) && |s| > 0
    ensures Ascending(s[1..])
    ensures forall y :: y in s[1..] ==> TextBefore(s[0], y)
  {
    forall y | y in s[1..] ensures TextBefore(s[0], y) {
      var k :| 0 <= k < |s[1..]| && s[1..][k] == y;
      assert s[k + 1] == y;
    }
  }

  /** What comes before the head of an ascending sequence comes before all of it. */
  lemma BeforeAll(x: string, s: seq<string>)
    requires Ascending(s) && |s| > 0 && TextBefore(x, s[0])
    ensures forall y :: y in s ==> TextBefore(x, y)
  {
    forall y | y in s ensures TextBefore(x, y) {
      if y != s[0] {
        TextBeforeTransitive(x, s[0], y);
      }
    }
  }

  /** Puts `x`, which is not in `s` yet, into its place. */
  function InsertText(x: string, s: seq<string>): (r: seq<string>)
    requires Ascending(s) && x !in s
    ensures Ascending(r)
    ensures multiset(r) == multiset(s) + multiset{x}
  {
    if |s| == 0 then [x]
    else
      assert s == [s[0]] + s[1..];
      AscendingTail(s);
      if TextBefore(x, s[0]) then
        BeforeAll(x, s);
        AscendingCons(x, s);
        [x] + s
      else
        TextBeforeTotal(x, s[0]);
        var rest := InsertText(x, s[1..]);
        assert forall y :: y in rest ==> y in s[1..] || y == x by {
          forall y | y in rest ensures y in s[1..] || y == x {
            assert y in multiset(rest);
          }
        }
        AscendingCons(s[0], rest);
        [s[0]] + rest
  }

  /** Sorts distinct texts into ascending order. */
  function SortTexts(s: seq<string>): (r: seq<string>)
    requires forall i, j :: 0 <= i < j < |s| ==> s[i] != s[j]
    ensures Ascending(r)
    ensures multiset(r) == multiset(s)
  {
    if |s| == 0 then []
    else
      assert s == [s[0]] + s[1..];
      var rest := SortTexts(s[1..]);
      assert s[0] !in rest by {
        forall k | 0 <= k < |s[1..]| ensures s[1..][k] != s[0] {
          assert s[1..][k] == s[k + 1];
        }
        assert s[0] !in multiset(s[1..]);
      }
      InsertText(s[0], rest)
  }

  // ---------------------------------------------------------------------------
  // Amounts in cents.

  /** `x` is a whole number of cents, as every two-decimal rounding returns. */
  predicate WholeCents(x: real) { (x * 100.0).Floor as real == x * 100.0 }

  /** A whole number of cents, divided by 100. */
  lemma CentsAreWhole(k: int)
    ensures WholeCents(k as real / 100.0)
  {
    assert k as real / 100.0 * 100.0 == k as real;
  }

  /** Whole cents stay whole when the sign flips. */
  lemma WholeCentsNeg(x: real)
    requires WholeCents(x)
    ensures WholeCents(-x)
  {
    var k := (x * 100.0).Floor;
    assert -x * 100.0 == (-k) as real;
  }

  /** Two amounts in whole cents that are less than a cent apart are equal, so
      a rounding is pinned down by its cents and its bound. */
  lemma WholeCentsUnique(a: real, b: real)
    requires WholeCents(a) && WholeCents(b) && a - 0.01 < b < a + 0.01
    ensures a == b
  {
    var i, j := (a * 100.0).Floor, (b * 100.0).Floor;
    assert i as real - 1.0 < j as real < i as real + 1.0;
    assert i == j;
  }
}

/** Folds over sequences of rows: the `reduce((a, b) => a + b.x, 0)` sums. */
module Folds {

  /** Sum of `f` over `s`, added left to right as `reduce` does. */
  function Sum<T>(s: seq<T>, f: T -> real): real {
    if |s| == 0 then 0.0 else Sum(s[..|s| - 1], f) + f(s[|s| - 1])
  }

  lemma {:induction false} SumAppend<T>(a: seq<T>, b: seq<T>, f: T -> real)
    ensures Sum(a + b, f) == Sum(a, f) + Sum(b, f)
  {
    if |b| == 0 {
      assert a + b == a;
    } else {
      assert (a + b)[..|a + b| - 1] == a + b[..|b| - 1];
      SumAppend(a, b[..|b| - 1], f);
    }
  }

  /** Sum over a prefix extended by one element. */
  lemma SumStep<T>(s: seq<T>, i: nat, f: T -> real)
    requires i < |s|
    ensures Sum(s[..i + 1], f) == Sum(s[..i], f) + f(s[i])
  {
    assert s[..i + 1][..i] == s[..i];
  }

  lemma {:induction false} SumPointwise<T>(s: seq<T>, f: T -> real, g: T -> real)
    requires forall i :: 0 <= i < |s| ==> f(s[i]) == g(s[i])
    ensures Sum(s, f) == Sum(s, g)
  {
    if |s| > 0 {
      SumPointwise(s[..|s| - 1], f, g);
    }
  }

  lemma {:induction false} SumLinear<T>(s: seq<T>, f: T -> real, g: T -> real, h: T -> real)
    requires forall i :: 0 <= i < |s| ==> h(s[i]) == f(s[i]) + g(s[i])
    ensures Sum(s, h) == Sum(s, f) + Sum(s, g)
  {
    if |s| > 0 {
      SumLinear(s[..|s| - 1], f, g, h);
    }
  }

  lemma {:induction false} SumDiff<T>(s: seq<T>, f: T -> real, g: T -> real, h: T -> real)
    requires forall i :: 0 <= i < |s| ==> h(s[i]) == f(s[i]) - g(s[i])
    ensures Sum(s, h) == Sum(s, f) - Sum(s, g)
  {
    if |s| > 0 {
      SumDiff(s[..|s| - 1], f, g, h);
    }
  }

  lemma {:induction false} SumNonneg<T>(s: seq<T>, f: T -> real)
    requires forall i :: 0 <= i < |s| ==> f(s[i]) >= 0.0
    ensures Sum(s, f) >= 0.0
  {
    if |s| > 0 {
      SumNonneg(s[..|s| - 1], f);
    }
  }

  lemma {:induction false} SumZero<T>(s: seq<T>, f: T -> real)
    requires forall i :: 0 <= i < |s| ==> f(s[i]) == 0.0
    ensures Sum(s, f) == 0.0
  {
    if |s| > 0 {
      SumZero(s[..|s| - 1], f);
    }
  }

  /** Two sequences of equal length whose elements contribute the same amounts
      position by position have the same sum. */
  lemma {:induction false} SumCorresponding<A, B>(a: seq<A>, b: seq<B>, f: A -> real, g: B -> real)
    requires |a| == |b|
    requires forall i :: 0 <= i < |a| ==> f(a[i]) == g(b[i])
    ensures Sum(a, f) == Sum(b, g)
  {
    if |a| > 0 {
      SumCorresponding(a[..|a| - 1], b[..|b| - 1], f, g);
    }
  }

  /** Rows kept by `filter(p)`, in order. */
  function Filter<T>(s: seq<T>, p: T -> bool): (r: seq<T>)
    ensures |r| <= |s|
    ensures forall x :: x in r ==> x in s && p(x)
    ensures forall x :: x in s && p(x) ==> x in r
  {
    if |s| == 0 then [] else
      Filter(s[..|s| - 1], p) + (if p(s[|s| - 1]) then [s[|s| - 1]] else [])
  }

  /** Summing the kept rows is summing every row with the dropped ones at zero. */
  lemma {:induction false} SumFilter<T>(s: seq<T>, p: T -> bool, f: T -> real, g: T -> real)
    requires forall x :: g(x) == (if p(x) then f(x) else 0.0)
    ensures Sum(Filter(s, p), f) == Sum(s, g)
  {
    if |s| > 0 {
      var init, last := s[..|s| - 1], s[|s| - 1];
      SumFilter(init, p, f, g);
      SumAppend(Filter(init, p), if p(last) then [last] else [], f);
      if p(last) {
        assert Sum([last], f) == f(last) by { assert [last][..0] == []; }
      }
    }
  }

  /** An element is kept as many times as it occurs when it passes, and never
      when it does not. */
  lemma {:induction false} FilterCount<T>(s: seq<T>, p: T -> bool, x: T)
    ensures multiset(Filter(s, p))[x] == if p(x) then multiset(s)[x] else 0
  {
    if |s| > 0 {
      var init, last := s[..|s| - 1], s[|s| - 1];
      FilterCount(init, p, x);
      assert s == init + [last];
    }
  }

  /** Filtering works piece by piece, so it keeps the order of the input. */
  lemma {:induction false} FilterAppend<T>(a: seq<T>, b: seq<T>, p: T -> bool)
    ensures Filter(a + b, p) == Filter(a, p) + Filter(b, p)
    decreases |b|
  {
    if |b| == 0 {
      assert a + b == a;
    } else {
      var init, last := b[..|b| - 1], b[|b| - 1];
      assert (a + b)[..|a + b| - 1] == a + init;
      assert (a + b)[|a + b| - 1] == last;
      FilterAppend(a, init, p);
    }
  }

  /** Filtering a prefix extended by one element. */
  lemma FilterStep<T>(s: seq<T>, i: nat, p: T -> bool)
    requires i < |s|
    ensures Filter(s[..i + 1], p) == Filter(s[..i], p) + (if p(s[i]) then [s[i]] else [])
  {
    assert s[..i + 1][..i] == s[..i];
  }

  /** Nothing is kept when no element passes. */
  lemma {:induction false} FilterNone<T>(s: seq<T>, p: T -> bool)
    requires forall i :: 0 <= i < |s| ==> !p(s[i])
    ensures Filter(s, p) == []
  {
    if |s| > 0 {
      FilterNone(s[..|s| - 1], p);
    }
  }

  /** Scaling every element scales the sum. */
  lemma {:induction false} SumScale<T>(s: seq<T>, f: T -> real, g: T -> real, c: real)
    requires forall i :: 0 <= i < |s| ==> g(s[i]) == c * f(s[i])
    ensures Sum(s, g) == c * Sum(s, f)
  {
    if |s| > 0 {
      SumScale(s[..|s| - 1], f, g, c);
    }
  }
}
