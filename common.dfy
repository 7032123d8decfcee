/** Shared vocabulary of the storefront model: optional values, JavaScript
    truthiness of optional strings, the character classes the regular
    expressions use, order-preserving filters and counts, the first-occurrence
    de-duplication of `new Set(...)`, and decimal text for whole numbers and
    prices in cents. */
module Common {

  datatype Option<T> = None | Some(value: T)

  // ---------------------------------------------------------------------------
  // JavaScript truthiness of an optional string (`null`, `undefined` and '' are falsy)

  predicate Truthy(s: Option<string>) {
    s.Some? && s.value != ""
  }

  /** `s || fallback` for an optional string. */
  function OrElse(s: Option<string>, fallback: string): (r: string)
    ensures Truthy(s) ==> r == s.value
    ensures !Truthy(s) ==> r == fallback
  {
    if s.Some? && s.value != "" then s.value else fallback
  }

  // ---------------------------------------------------------------------------
  // Character classes

  predicate IsAsciiLower(c: char) { 'a' <= c <= 'z' }
  predicate IsAsciiUpper(c: char) { 'A' <= c <= 'Z' }
  predicate IsAsciiLetter(c: char) { IsAsciiLower(c) || IsAsciiUpper(c) }
  /** `\d` of a JavaScript regular expression. */
  predicate IsDigit(c: char) { '0' <= c <= '9' }
  predicate IsAlphanumeric(c: char) { IsAsciiLetter(c) || IsDigit(c) }

  /** `\s` of a JavaScript regular expression: the ECMAScript white space and
      line terminator characters. */
  predicate IsJsWhitespace(c: char) {
    c == '\t' || c == '\n' || c == '\U{000B}' || c == '\U{000C}' || c == '\r' || c == ' '
    || c == '\U{00A0}' || c == '\U{1680}' || ('\U{2000}' <= c <= '\U{200A}')
    || c == '\U{2028}' || c == '\U{2029}' || c == '\U{202F}' || c == '\U{205F}'
    || c == '\U{3000}' || c == '\U{FEFF}'
  }

  /** The characters `.` of a JavaScript regular expression does not match. */
  predicate IsLineTerminator(c: char) {
    c == '\n' || c == '\r' || c == '\U{2028}' || c == '\U{2029}'
  }

  function ToLower(c: char): (r: char)
    ensures IsAsciiUpper(c) ==> IsAsciiLower(r) && r as int == c as int + 32
    ensures !IsAsciiUpper(c) ==> r == c
  {
    if IsAsciiUpper(c) then (c as int + 32) as char else c
  }

  function ToUpper(c: char): (r: char)
    ensures IsAsciiLower(c) ==> IsAsciiUpper(r) && r as int == c as int - 32
    ensures !IsAsciiLower(c) ==> r == c
  {
    if IsAsciiLower(c) then (c as int - 32) as char else c
  }

  lemma ToUpperIdempotent(c: char)
    ensures ToUpper(ToUpper(c)) == ToUpper(c)
  {
  }

  /** `s.toLowerCase()` on the ASCII letters. */
  function Lowercase(s: string): (r: string)
    ensures |r| == |s|
    ensures forall i :: 0 <= i < |s| ==> r[i] == ToLower(s[i])
  {
    if s == [] then [] else [ToLower(s[0])] + Lowercase(s[1..])
  }

  predicate IsPrefix<T(==)>(p: seq<T>, s: seq<T>) {
    |p| <= |s| && s[..|p|] == p
  }

  /** `hay.includes(needle)`. */
  predicate Includes<T(==)>(hay: seq<T>, needle: seq<T>)
    decreases |hay|
  {
    IsPrefix(needle, hay) || (hay != [] && Includes(hay[1..], needle))
  }

  lemma {:induction false} IncludesAt<T>(hay: seq<T>, needle: seq<T>, k: nat)
    requires k + |needle| <= |hay| && hay[k..k + |needle|] == needle
    ensures Includes(hay, needle)
    decreases k
  {
    if k > 0 {
      assert hay[1..][k - 1..k - 1 + |needle|] == hay[k..k + |needle|];
      IncludesAt(hay[1..], needle, k - 1);
    }
  }

  lemma {:induction false} IncludesWitness<T>(hay: seq<T>, needle: seq<T>) returns (k: nat)
    requires Includes(hay, needle)
    ensures k + |needle| <= |hay| && hay[k..k + |needle|] == needle
    decreases |hay|
  {
    if IsPrefix(needle, hay) {
      k := 0;
    } else {
      var j := IncludesWitness(hay[1..], needle);
      k := j + 1;
      assert hay[1..][j..j + |needle|] == hay[k..k + |needle|];
    }
  }

  /** `s.trim()`: drops leading and trailing white space and line terminators. */
  function TrimStart(s: string): (r: string)
    ensures |r| <= |s| && r == s[|s| - |r|..]
    ensures r == [] || !IsJsWhitespace(r[0])
    decreases |s|
  {
    if s != [] && IsJsWhitespace(s[0]) then TrimStart(s[1..]) else s
  }

  function TrimEnd(s: string): (r: string)
    ensures |r| <= |s| && r == s[..|r|]
    ensures r == [] || !IsJsWhitespace(r[|r| - 1])
    decreases |s|
  {
    if s != [] && IsJsWhitespace(s[|s| - 1]) then TrimEnd(s[..|s| - 1]) else s
  }

  function Trim(s: string): (r: string)
    ensures |r| <= |s|
    ensures r == [] || (!IsJsWhitespace(r[0]) && !IsJsWhitespace(r[|r| - 1]))
  {
    var t := TrimStart(s);
    var r := TrimEnd(t);
    assert r != [] ==> r[0] == t[0];
    r
  }

  /** Text with no white space at either end is its own trim, so trimming is
      idempotent; text made only of white space trims to the empty text. */
  lemma TrimSpec(s: string)
    ensures (s == [] || (!IsJsWhitespace(s[0]) && !IsJsWhitespace(s[|s| - 1]))) ==> Trim(s) == s
    ensures Trim(Trim(s)) == Trim(s)
    ensures (forall i :: 0 <= i < |s| ==> IsJsWhitespace(s[i])) ==> Trim(s) == []
  {
    if forall i :: 0 <= i < |s| ==> IsJsWhitespace(s[i]) {
      AllWhiteTrimsEmpty(s);
    }
  }

  lemma {:induction false} AllWhiteTrimsEmpty(s: string)
    requires forall i :: 0 <= i < |s| ==> IsJsWhitespace(s[i])
    ensures TrimStart(s) == []
    decreases |s|
  {
    if s != [] {
      AllWhiteTrimsEmpty(s[1..]);
    }
  }

  // ---------------------------------------------------------------------------
  // Order-preserving filters (`Array.prototype.filter`)

  function Filter<T>(s: seq<T>, p: T -> bool): (r: seq<T>)
    ensures |r| <= |s|
  {
    if s == [] then [] else (if p(s[0]) then [s[0]] else []) + Filter(s[1..], p)
  }

  /** `a` can be obtained from `b` by deleting elements. */
  predicate IsSubsequence<T(==)>(a: seq<T>, b: seq<T>)
    decreases |b|
  {
    if a == [] then true
    else if b == [] then false
    else if a[0] == b[0] then IsSubsequence(a[1..], b[1..])
    else IsSubsequence(a, b[1..])
  }

  lemma {:induction false} FilterMembers<T>(s: seq<T>, p: T -> bool, x: T)
    ensures x in Filter(s, p) <==> x in s && p(x)
  {
    if s != [] {
      FilterMembers(s[1..], p, x);
    }
  }

  lemma {:induction false} FilterIsSubsequence<T>(s: seq<T>, p: T -> bool)
    ensures IsSubsequence(Filter(s, p), s)
  {
    if s != [] {
      FilterIsSubsequence(s[1..], p);
      assert s == [s[0]] + s[1..];
      if p(s[0]) {
        assert Filter(s, p)[0] == s[0] && Filter(s, p)[1..] == Filter(s[1..], p);
      } else {
        assert Filter(s, p) == Filter(s[1..], p);
        SubsequenceCons(Filter(s[1..], p), s[0], s[1..]);
      }
    }
  }

  /** Helper: a subsequence of `b` is a subsequence of `[x] + b`. */
  lemma {:induction false} SubsequenceCons<T>(a: seq<T>, x: T, b: seq<T>)
    requires IsSubsequence(a, b)
    ensures IsSubsequence(a, [x] + b)
    decreases |a| + |b| + 1
  {
    assert ([x] + b)[1..] == b;
    if a != [] && a[0] == x {
      SubsequenceOfTail(a, b);
    }
  }

  /** Helper: dropping the head of a non-empty subsequence keeps it a subsequence. */
  lemma {:induction false} SubsequenceOfTail<T>(a: seq<T>, b: seq<T>)
    requires a != [] && IsSubsequence(a, b)
    ensures IsSubsequence(a[1..], b)
    decreases |a| + |b|
  {
    assert b == [b[0]] + b[1..];
    if a[0] == b[0] {
      SubsequenceCons(a[1..], b[0], b[1..]);
    } else {
      SubsequenceOfTail(a, b[1..]);
      SubsequenceCons(a[1..], b[0], b[1..]);
    }
  }

  /** Being a subsequence is transitive. */
  lemma {:induction false} SubsequenceTrans<T>(a: seq<T>, b: seq<T>, c: seq<T>)
    requires IsSubsequence(a, b) && IsSubsequence(b, c)
    ensures IsSubsequence(a, c)
    decreases |c|
  {
    if a != [] {
      if b[0] == c[0] {
        if a[0] == b[0] {
          SubsequenceTrans(a[1..], b[1..], c[1..]);
        } else {
          SubsequenceTrans(a, b[1..], c[1..]);
        }
      } else {
        SubsequenceTrans(a, b, c[1..]);
        if a[0] == c[0] {
          SubsequenceOfTail(a, c[1..]);
        }
      }
    }
  }

  lemma {:induction false} FilterAll<T>(s: seq<T>, p: T -> bool)
    requires forall i :: 0 <= i < |s| ==> p(s[i])
    ensures Filter(s, p) == s
  {
    if s != [] {
      FilterAll(s[1..], p);
    }
  }

  /** Every earlier element is related to every later one by `R`. */
  predicate Pairwise<T>(s: seq<T>, R: (T, T) -> bool) {
    forall i, j :: 0 <= i < j < |s| ==> R(s[i], s[j])
  }

  lemma {:induction false} FilterPairwise<T>(s: seq<T>, p: T -> bool, R: (T, T) -> bool)
    requires Pairwise(s, R)
    ensures Pairwise(Filter(s, p), R)
  {
    if s != [] {
      var t := Filter(s[1..], p);
      FilterPairwise(s[1..], p, R);
      if p(s[0]) {
        var f := Filter(s, p);
        assert f == [s[0]] + t;
        forall i, j | 0 <= i < j < |f|
          ensures R(f[i], f[j])
        {
          if i == 0 {
            assert f[j] == t[j - 1];
            assert t[j - 1] in s[1..] by { FilterMembers(s[1..], p, t[j - 1]); }
            var k :| 0 <= k < |s[1..]| && s[1..][k] == t[j - 1];
            assert s[k + 1] == f[j];
          } else {
            assert f[i] == t[i - 1] && f[j] == t[j - 1];
          }
        }
      } else {
        assert Filter(s, p) == t;
      }
    }
  }

  /** Number of elements satisfying `p` (`s.filter(p).length`). */
  function Count<T>(s: seq<T>, p: T -> bool): (n: nat)
    ensures n <= |s|
  {
    |Filter(s, p)|
  }

  lemma {:induction false} FilterSnoc<T>(s: seq<T>, x: T, p: T -> bool)
    ensures Filter(s + [x], p) == Filter(s, p) + (if p(x) then [x] else [])
  {
    if s == [] {
      assert s + [x] == [x];
    } else {
      var h := if p(s[0]) then [s[0]] else [];
      assert (s + [x])[0] == s[0];
      assert (s + [x])[1..] == s[1..] + [x];
      assert Filter(s + [x], p) == h + Filter(s[1..] + [x], p);
      FilterSnoc(s[1..], x, p);
      assert Filter(s, p) == h + Filter(s[1..], p);
    }
  }

  /** Filtering distributes over concatenation. */
  lemma {:induction false} FilterAppend<T>(a: seq<T>, b: seq<T>, p: T -> bool)
    ensures Filter(a + b, p) == Filter(a, p) + Filter(b, p)
  {
    if a == [] {
      assert a + b == b;
    } else {
      var h := if p(a[0]) then [a[0]] else [];
      assert (a + b)[0] == a[0];
      assert (a + b)[1..] == a[1..] + b;
      assert Filter(a + b, p) == h + Filter(a[1..] + b, p);
      FilterAppend(a[1..], b, p);
      assert Filter(a, p) == h + Filter(a[1..], p);
    }
  }

  lemma CountSnoc<T>(s: seq<T>, x: T, p: T -> bool)
    ensures Count(s + [x], p) == Count(s, p) + (if p(x) then 1 else 0)
  {
    FilterSnoc(s, x, p);
  }

  // ---------------------------------------------------------------------------
  // First-occurrence de-duplication (`[...new Set(s)]`)

  function Distinct<T(==)>(s: seq<T>): (r: seq<T>)
    decreases |s|
  {
    if s == [] then []
    else
      var d := Distinct(s[..|s| - 1]);
      if s[|s| - 1] in d then d else d + [s[|s| - 1]]
  }

  /** Index of the first occurrence of `x` in `s`. */
  function FirstIndex<T(==)>(s: seq<T>, x: T): (k: nat)
    requires x in s
    ensures k < |s| && s[k] == x && x !in s[..k]
  {
    if s[0] == x then 0 else 1 + FirstIndex(s[1..], x)
  }

  predicate NoDuplicates<T(==)>(s: seq<T>) {
    forall i, j :: 0 <= i < j < |s| ==> s[i] != s[j]
  }

  /** `[...new Set(s)]` holds each element of `s` exactly once, nothing else,
      in the order of first occurrence. */
  lemma {:induction false} DistinctSpec<T>(s: seq<T>)
    ensures forall x :: x in Distinct(s) <==> x in s
    ensures NoDuplicates(Distinct(s))
    ensures forall i, j :: 0 <= i < j < |Distinct(s)| ==>
              FirstIndex(s, Distinct(s)[i]) < FirstIndex(s, Distinct(s)[j])
    decreases |s|
  {
    if s != [] {
      var init := s[..|s| - 1];
      var last := s[|s| - 1];
      DistinctSpec(init);
      assert s == init + [last];
      forall x | x in init
        ensures FirstIndex(s, x) == FirstIndex(init, x)
      {
        FirstIndexPrefix(init, last, x);
      }
      if last !in init {
        assert FirstIndex(s, last) == |init| by { FirstIndexLast(init, last); }
      }
    }
  }

  /** Helper: one element's membership in `[...new Set(s)]`. */
  lemma {:induction false} DistinctHas<T>(s: seq<T>, x: T)
    ensures x in Distinct(s) <==> x in s
    decreases |s|
  {
    if s != [] {
      DistinctHas(s[..|s| - 1], x);
      assert s == s[..|s| - 1] + [s[|s| - 1]];
    }
  }

  lemma {:induction false} FirstIndexPrefix<T>(init: seq<T>, last: T, x: T)
    requires x in init
    ensures FirstIndex(init + [last], x) == FirstIndex(init, x)
  {
    if init[0] != x {
      assert (init + [last])[1..] == init[1..] + [last];
      FirstIndexPrefix(init[1..], last, x);
    }
  }

  lemma {:induction false} FirstIndexLast<T>(init: seq<T>, last: T)
    requires last !in init
    ensures FirstIndex(init + [last], last) == |init|
  {
    if init != [] {
      assert (init + [last])[1..] == init[1..] + [last];
      FirstIndexLast(init[1..], last);
    }
  }

  // ---------------------------------------------------------------------------
  // Sums

  function Sum(s: seq<int>): int {
    if s == [] then 0 else s[0] + Sum(s[1..])
  }

  lemma {:induction false} SumAppend(a: seq<int>, b: seq<int>)
    ensures Sum(a + b) == Sum(a) + Sum(b)
  {
    if a == [] {
      assert a + b == b;
    } else {
      assert (a + b)[1..] == a[1..] + b;
      SumAppend(a[1..], b);
    }
  }

  // ---------------------------------------------------------------------------
  // Decimal text of whole numbers and of prices in cents

  function DigitChar(d: nat): (c: char)
    requires d < 10
    ensures IsDigit(c) && DigitValue(c) == d
  {
    ('0' as int + d) as char
  }

  function DigitValue(c: char): (d: nat)
    requires IsDigit(c)
    ensures d < 10
  {
    c as int - '0' as int
  }

  predicate AllDigits(s: string) {
    forall i :: 0 <= i < |s| ==> IsDigit(s[i])
  }

  /** The value of a non-empty run of decimal digits. */
  function DigitsValue(s: string): nat
    requires AllDigits(s)
    decreases |s|
  {
    if s == [] then 0 else DigitsValue(s[..|s| - 1]) * 10 + DigitValue(s[|s| - 1])
  }

  /** `String(n)` for a whole number. */
  function Decimal(n: nat): (r: string)
    ensures |r| > 0 && AllDigits(r)
  {
    if n < 10 then [DigitChar(n)] else Decimal(n / 10) + [DigitChar(n % 10)]
  }

  lemma {:induction false} DecimalRoundTrip(n: nat)
    ensures DigitsValue(Decimal(n)) == n
  {
    if n >= 10 {
      DecimalRoundTrip(n / 10);
      var r := Decimal(n);
      assert r[..|r| - 1] == Decimal(n / 10);
    }
  }

  /** `(cents / 100).toString()`: the shortest decimal text of a price, with no
      fraction when it is whole and no trailing zero in the fraction. */
  function PriceText(cents: nat): string {
    var whole := Decimal(cents / 100);
    var frac := cents % 100;
    if frac == 0 then whole
    else if frac % 10 == 0 then whole + "." + [DigitChar(frac / 10)]
    else whole + "." + [DigitChar(frac / 10), DigitChar(frac % 10)]
  }

  /** Reads a price written as digits with an optional fraction of one or two
      digits, in cents; any other text is `None` (the source's `NaN`). */
  function ParsePrice(s: string): Option<nat> {
    if |s| > 0 && AllDigits(s) then Some(DigitsValue(s) * 100)
    else if |s| >= 3 && s[|s| - 2] == '.' && AllDigits(s[..|s| - 2]) && IsDigit(s[|s| - 1]) then
      Some(DigitsValue(s[..|s| - 2]) * 100 + DigitValue(s[|s| - 1]) * 10)
    else if |s| >= 4 && s[|s| - 3] == '.' && AllDigits(s[..|s| - 3])
            && IsDigit(s[|s| - 2]) && IsDigit(s[|s| - 1]) then
      Some(DigitsValue(s[..|s| - 3]) * 100 + DigitValue(s[|s| - 2]) * 10 + DigitValue(s[|s| - 1]))
    else None
  }

  /** Writing a price and reading it back gives the same number of cents. */
  lemma PriceRoundTrip(cents: nat)
    ensures ParsePrice(PriceText(cents)) == Some(cents)
  {
    var whole := Decimal(cents / 100);
    DecimalRoundTrip(cents / 100);
    var frac := cents % 100;
    var t := PriceText(cents);
    if frac == 0 {
    } else if frac % 10 == 0 {
      assert t[..|t| - 2] == whole;
      assert t[|t| - 2] == '.';
    } else {
      assert t[..|t| - 3] == whole;
      assert !IsDigit(t[|t| - 3]);
    }
  }
}
