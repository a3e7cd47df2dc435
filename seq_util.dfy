/** Small sequence and string helpers shared by the page models: the
    JavaScript `Array.prototype.filter`, `find`, `slice`, `String.includes`,
    `toLowerCase` and `Number(...)` the pages rely on, each with the facts
    the page-level proofs need. */
module SeqUtil {

  datatype Option<T> = None | Some(value: T)

  function Min(a: int, b: int): int { if a <= b then a else b }

  // ---------------------------------------------------------------------------
  // Array.prototype.filter

  /** The elements of `s` that satisfy `p`, in their order in `s`. */
  function Filter<T>(s: seq<T>, p: T -> bool): (r: seq<T>)
    ensures |r| <= |s|
  {
    if s == [] then []
    else if p(s[0]) then [s[0]] + Filter(s[1..], p)
    else Filter(s[1..], p)
  }

  /** `r` is `s` with some elements dropped and the rest kept in order. */
  ghost predicate Subsequence<T>(r: seq<T>, s: seq<T>)
    decreases |s|
  {
    if r == [] then true
    else if s == [] then false
    else (r[0] == s[0] && Subsequence(r[1..], s[1..])) || Subsequence(r, s[1..])
  }

  /** Filter keeps exactly the satisfying occurrences: every satisfying
      element keeps its multiplicity, every other one disappears. */
  lemma {:induction false} FilterCount<T>(s: seq<T>, p: T -> bool, x: T)
    ensures multiset(Filter(s, p))[x] == if p(x) then multiset(s)[x] else 0
  {
    if s != [] {
      FilterCount(s[1..], p, x);
      assert s == [s[0]] + s[1..];
    }
  }

  /** Filter keeps the order of the input. */
  lemma {:induction false} FilterIsSubsequence<T>(s: seq<T>, p: T -> bool)
    ensures Subsequence(Filter(s, p), s)
  {
    if s != [] {
      FilterIsSubsequence(s[1..], p);
      var r := Filter(s[1..], p);
      if p(s[0]) {
        assert ([s[0]] + r)[1..] == r;
      } else if r != [] {
        assert Subsequence(r, s[1..]);
      }
    }
  }

  /** Every element Filter keeps comes from the input and satisfies `p`. */
  lemma FilterSound<T>(s: seq<T>, p: T -> bool, x: T)
    requires x in Filter(s, p)
    ensures x in s && p(x)
  {
    FilterCount(s, p, x);
  }

  /** A filter result is empty exactly when no element passes. */
  lemma FilterEmptyIff<T>(s: seq<T>, p: T -> bool)
    ensures Filter(s, p) == [] <==> forall i :: 0 <= i < |s| ==> !p(s[i])
  {
    if Filter(s, p) != [] {
      var r := Filter(s, p);
      assert r[0] in r;
      FilterSound(s, p, r[0]);
    } else {
      forall i | 0 <= i < |s| ensures !p(s[i]) {
        FilterCount(s, p, s[i]);
        assert s[i] in multiset(s);
      }
    }
  }

  /** Filter is a sub-multiset of its input. */
  lemma FilterSubMultiset<T>(s: seq<T>, p: T -> bool)
    ensures multiset(Filter(s, p)) <= multiset(s)
  {
    forall x ensures multiset(Filter(s, p))[x] <= multiset(s)[x] {
      FilterCount(s, p, x);
    }
  }

  /** A filter every element passes changes nothing. */
  lemma {:induction false} FilterAllPass<T>(s: seq<T>, p: T -> bool)
    requires forall i :: 0 <= i < |s| ==> p(s[i])
    ensures Filter(s, p) == s
  {
    if s != [] {
      FilterAllPass(s[1..], p);
    }
  }

  /** A filter no element passes leaves nothing. */
  lemma {:induction false} FilterNonePass<T>(s: seq<T>, p: T -> bool)
    requires forall i :: 0 <= i < |s| ==> !p(s[i])
    ensures Filter(s, p) == []
  {
    if s != [] {
      FilterNonePass(s[1..], p);
    }
  }

  /** Filtering twice is filtering once by the conjunction. */
  lemma {:induction false} FilterFilter<T>(s: seq<T>, p: T -> bool, q: T -> bool, both: T -> bool)
    requires forall x :: both(x) == (p(x) && q(x))
    ensures Filter(Filter(s, p), q) == Filter(s, both)
  {
    if s != [] {
      FilterFilter(s[1..], p, q, both);
    }
  }

  /** Filtering twice by the same predicate is filtering once. */
  lemma FilterIdempotent<T>(s: seq<T>, p: T -> bool)
    ensures Filter(Filter(s, p), p) == Filter(s, p)
  {
    var r := Filter(s, p);
    forall i | 0 <= i < |r| ensures p(r[i]) {
      FilterSound(s, p, r[i]);
    }
    FilterAllPass(r, p);
  }

  /** Filter distributes over concatenation. */
  lemma {:induction false} FilterConcat<T>(a: seq<T>, b: seq<T>, p: T -> bool)
    ensures Filter(a + b, p) == Filter(a, p) + Filter(b, p)
  {
    if a == [] {
      assert a + b == b;
    } else {
      FilterConcat(a[1..], b, p);
      var ab := a + b;
      assert ab[0] == a[0];
      assert ab[1..] == a[1..] + b;
      if p(a[0]) {
        calc {
          Filter(ab, p);
          [a[0]] + Filter(a[1..] + b, p);
          [a[0]] + (Filter(a[1..], p) + Filter(b, p));
          ([a[0]] + Filter(a[1..], p)) + Filter(b, p);
        }
      } else {
        calc {
          Filter(ab, p);
          Filter(a[1..] + b, p);
        }
      }
    }
  }

  // ---------------------------------------------------------------------------
  // Array.prototype.find / findIndex

  /** The index of the first element satisfying `p`, if any. */
  function FindIndex<T>(s: seq<T>, p: T -> bool): (r: Option<nat>)
    ensures r.Some? ==> r.value < |s| && p(s[r.value])
    ensures r.Some? ==> forall j :: 0 <= j < r.value ==> !p(s[j])
    ensures r.None? ==> forall j :: 0 <= j < |s| ==> !p(s[j])
  {
    if s == [] then None
    else if p(s[0]) then Some(0)
    else match FindIndex(s[1..], p)
      case None => None
      case Some(i) => Some(i + 1)
  }

  /** The first element satisfying `p`, if any (JavaScript's `find`). */
  function Find<T>(s: seq<T>, p: T -> bool): (r: Option<T>)
    ensures r.Some? <==> exists i :: 0 <= i < |s| && p(s[i])
    ensures r.Some? ==> r.value in s && p(r.value)
  {
    match FindIndex(s, p)
    case None => None
    case Some(i) => Some(s[i])
  }

  // ---------------------------------------------------------------------------
  // Strings

  /** `needle` occurs in `hay` starting at its first position. */
  predicate StartsWith(hay: string, needle: string)
  {
    |needle| <= |hay| && hay[..|needle|] == needle
  }

  /** JavaScript's `hay.includes(needle)`: `needle` occurs somewhere in `hay`. */
  predicate Includes(hay: string, needle: string)
    decreases |hay|
  {
    StartsWith(hay, needle) || (hay != [] && Includes(hay[1..], needle))
  }

  /** `needle` occurs in `hay` at offset `k`. */
  ghost predicate OccursAt(hay: string, needle: string, k: int)
  {
    0 <= k && k + |needle| <= |hay| && hay[k..k + |needle|] == needle
  }

  /** `Includes` holds exactly when there is an offset where `needle` occurs. */
  lemma {:induction false} IncludesAt(hay: string, needle: string)
    ensures Includes(hay, needle) <==> exists k :: OccursAt(hay, needle, k)
  {
    if Includes(hay, needle) {
      if StartsWith(hay, needle) {
        assert OccursAt(hay, needle, 0);
      } else {
        IncludesAt(hay[1..], needle);
        var k :| OccursAt(hay[1..], needle, k);
        assert hay[1..][k..k + |needle|] == hay[k + 1..k + 1 + |needle|];
        assert OccursAt(hay, needle, k + 1);
      }
    } else {
      forall k | OccursAt(hay, needle, k)
        ensures false
      {
        NotIncludesAt(hay, needle, k);
      }
    }
  }

  lemma {:induction false} NotIncludesAt(hay: string, needle: string, k: nat)
    requires !Includes(hay, needle)
    ensures !OccursAt(hay, needle, k)
  {
    if k > 0 && k + |needle| <= |hay| {
      NotIncludesAt(hay[1..], needle, k - 1);
      assert hay[1..][k - 1..k - 1 + |needle|] == hay[k..k + |needle|];
    }
  }

  /** The empty string occurs in every string. */
  lemma IncludesEmpty(hay: string)
    ensures Includes(hay, "")
  {
    assert StartsWith(hay, "");
  }

  /** Lower-casing of one character (ASCII letters only). */
  function LowerChar(c: char): (r: char)
    ensures 'A' <= c <= 'Z' ==> 'a' <= r <= 'z'
    ensures !('A' <= c <= 'Z') ==> r == c
  {
    if 'A' <= c <= 'Z' then (c as int - 'A' as int + 'a' as int) as char else c
  }

  /** `toLowerCase`, with case mapping limited to ASCII letters. */
  function Lower(s: string): (r: string)
    ensures |r| == |s|
    ensures forall i :: 0 <= i < |s| ==> r[i] == LowerChar(s[i])
  {
    seq(|s|, i requires 0 <= i < |s| => LowerChar(s[i]))
  }

  /** Lower-casing twice is lower-casing once. */
  lemma LowerIdempotent(s: string)
    ensures Lower(Lower(s)) == Lower(s)
  {
  }

  // ---------------------------------------------------------------------------
  // Number(...) on the text a number input delivers

  predicate IsDigit(c: char) { '0' <= c <= '9' }

  function DigitsValue(s: string): (n: nat)
    requires forall i :: 0 <= i < |s| ==> IsDigit(s[i])
    decreases |s|
  {
    if s == [] then 0
    else
      assert IsDigit(s[|s| - 1]);
      10 * DigitsValue(s[..|s| - 1]) + (s[|s| - 1] as int - '0' as int)
  }

  predicate AllDigits(s: string)
  {
    forall i :: 0 <= i < |s| ==> IsDigit(s[i])
  }

  /** 10 to the power `n`. */
  function Pow10(n: nat): (r: real)
    ensures r >= 1.0
  {
    if n == 0 then 1.0 else 10.0 * Pow10(n - 1)
  }

  /** `m` times 10 to the power `e`, for an exponent of either sign. */
  function Scale(m: real, e: int): real
  {
    if e >= 0 then m * Pow10(e) else m / Pow10(-e)
  }

  function IsChar(c: char): char -> bool { (x: char) => x == c }

  function IsExponentMark(): char -> bool { (x: char) => x == 'e' || x == 'E' }

  /** A character that can occur in a decimal number literal. */
  predicate NumberChar(c: char)
  {
    IsDigit(c) || c == '.' || c == 'e' || c == 'E' || c == '+' || c == '-'
  }

  /** The value of digits with at most one '.', and at least one digit on
      some side of it: "5", "5.", ".5" and "5.25" are numbers, "." is not. */
  function DecimalValue(s: string): (r: Option<real>)
    ensures s != [] && AllDigits(s) ==> r == Some(DigitsValue(s) as real)
    ensures r.Some? ==> forall i :: 0 <= i < |s| ==> IsDigit(s[i]) || s[i] == '.'
  {
    match FindIndex(s, IsChar('.'))
    case None => if s != [] && AllDigits(s) then Some(DigitsValue(s) as real) else None
    case Some(d) =>
      var whole, frac := s[..d], s[d + 1..];
      if AllDigits(whole) && AllDigits(frac) && (whole != [] || frac != []) then
        assert forall i :: 0 <= i < |s| && i != d ==> s[i] == if i < d then whole[i] else frac[i - d - 1];
        Some(FractionValue(whole, frac))
      else None
  }

  /** The value of `whole.frac` for two digit strings. */
  function FractionValue(whole: string, frac: string): real
    requires AllDigits(whole) && AllDigits(frac)
  {
    DigitsValue(whole) as real + DigitsValue(frac) as real / Pow10(|frac|)
  }

  /** The value of an exponent: digits with an optional sign. */
  function ExponentValue(s: string): (r: Option<int>)
    ensures r.Some? ==> forall i :: 0 <= i < |s| ==> NumberChar(s[i])
  {
    if s != [] && AllDigits(s) then Some(DigitsValue(s))
    else if |s| > 1 && s[0] == '+' && AllDigits(s[1..]) then Some(DigitsValue(s[1..]))
    else if |s| > 1 && s[0] == '-' && AllDigits(s[1..]) then Some(0 - DigitsValue(s[1..]))
    else None
  }

  /** An unsigned decimal literal with an optional exponent part. */
  function UnsignedValue(s: string): (r: Option<real>)
    ensures s != [] && AllDigits(s) ==> r == Some(DigitsValue(s) as real)
    ensures r.Some? ==> forall i :: 0 <= i < |s| ==> NumberChar(s[i])
  {
    match FindIndex(s, IsExponentMark())
    case None => DecimalValue(s)
    case Some(k) =>
      match (DecimalValue(s[..k]), ExponentValue(s[k + 1..]))
      case (Some(m), Some(e)) =>
        assert forall i :: 0 <= i < |s| && i != k ==> s[i] == if i < k then s[..k][i] else s[k + 1..][i - k - 1];
        Some(Scale(m, e))
      case _ => None
  }

  /** `Number(s)` on the text of a number input: "" is 0; otherwise an
      optional sign, then digits with an optional fraction, then an optional
      exponent. Every other text is NaN, shown as None. */
  function ParseNumber(s: string): (r: Option<real>)
    ensures s == [] ==> r == Some(0.0)
    ensures s != [] && AllDigits(s) ==> r == Some(DigitsValue(s) as real)
    ensures (exists i :: 0 <= i < |s| && !NumberChar(s[i])) ==> r.None?
  {
    if s == [] then Some(0.0)
    else if s[0] == '-' then
      match UnsignedValue(s[1..])
      case Some(v) => Some(-v)
      case None => None
    else if s[0] == '+' then UnsignedValue(s[1..])
    else UnsignedValue(s)
  }

  /** The first satisfying position is the one `FindIndex` gives. */
  lemma FindIndexIs<T>(s: seq<T>, p: T -> bool, k: nat)
    requires k < |s| && p(s[k]) && forall j :: 0 <= j < k ==> !p(s[j])
    ensures FindIndex(s, p) == Some(k)
  {
  }

  /** A text of digits and dots has no exponent part. */
  lemma NoExponentMark(s: string)
    requires forall i :: 0 <= i < |s| ==> IsDigit(s[i]) || s[i] == '.'
    ensures FindIndex(s, IsExponentMark()) == None
  {
  }

  lemma FractionChars(w: string, f: string)
    requires AllDigits(w) && AllDigits(f)
    ensures var s := w + "." + f;
      && (forall i :: 0 <= i < |s| ==> IsDigit(s[i]) || s[i] == '.')
      && (forall j :: 0 <= j < |w| ==> !IsChar('.')(s[j]))
      && s[|w|] == '.' && s[..|w|] == w && s[|w| + 1..] == f
  {
    var s := w + "." + f;
    forall i | 0 <= i < |s| ensures IsDigit(s[i]) || s[i] == '.' {
      if i < |w| { assert s[i] == w[i]; }
      else if i > |w| { assert s[i] == f[i - |w| - 1]; }
    }
    assert s[..|w|] == w && s[|w| + 1..] == f;
  }

  lemma DecimalOfFraction(w: string, f: string)
    requires AllDigits(w) && AllDigits(f) && (w != [] || f != [])
    ensures DecimalValue(w + "." + f) == Some(FractionValue(w, f))
  {
    var s := w + "." + f;
    FractionChars(w, f);
    FindIndexIs(s, IsChar('.'), |w|);
  }

  /** Digits, a '.', and digits (not both empty) denote the whole part plus
      the fraction scaled down by its number of digits. */
  lemma FractionMeaning(w: string, f: string)
    requires AllDigits(w) && AllDigits(f) && (w != [] || f != [])
    ensures ParseNumber(w + "." + f) == Some(FractionValue(w, f))
    ensures FractionValue(w, f) == DigitsValue(w) as real + DigitsValue(f) as real / Pow10(|f|)
  {
    var s := w + "." + f;
    FractionChars(w, f);
    DecimalOfFraction(w, f);
    NoExponentMark(s);
    assert UnsignedValue(s) == Some(FractionValue(w, f));
    assert s[0] == '.' || IsDigit(s[0]);
  }

  /** The exponent part reads back the integer whose text it is. */
  lemma ExponentOfShow(x: int)
    ensures ExponentValue(ShowNumber(x)) == Some(x)
  {
    if x < 0 {
      var t := "-" + Digits(-x);
      DigitsRoundTrip(-x);
      assert t[1..] == Digits(-x);
      assert !IsDigit(t[0]);
    } else {
      DigitsRoundTrip(x);
    }
  }

  /** A decimal literal followed by an exponent mark and the text of an
      integer `x` denotes the literal's value times 10 to the power `x`. */
  lemma ExponentMeaning(m: string, x: int)
    requires DecimalValue(m).Some?
    ensures ParseNumber(m + "e" + ShowNumber(x)) == Some(Scale(DecimalValue(m).value, x))
  {
    var t := ShowNumber(x);
    var s := m + "e" + t;
    assert m != [];
    assert s[..|m|] == m && s[|m| + 1..] == t && s[|m|] == 'e';
    forall j | 0 <= j < |m| ensures !IsExponentMark()(s[j]) {
      assert s[j] == m[j];
    }
    FindIndexIs(s, IsExponentMark(), |m|);
    ExponentOfShow(x);
    assert UnsignedValue(s) == Some(Scale(DecimalValue(m).value, x));
    assert s[0] == m[0];
  }

  /** A leading '-' negates an unsigned number. */
  lemma NegationMeaning(t: string)
    requires UnsignedValue(t).Some?
    ensures ParseNumber("-" + t) == Some(-UnsignedValue(t).value)
  {
    assert ("-" + t)[1..] == t;
  }

  /** A fraction is read by value, with or without digits before the '.'. */
  lemma FractionExamples()
    ensures ParseNumber("99.5") == Some(99.5)
    ensures ParseNumber(".5") == Some(0.5)
  {
    assert FindIndex("99.5", IsExponentMark()) == None;
    assert FindIndex("99.5", IsChar('.')) == Some(2);
    assert "99.5"[..2] == "99" && "99"[..1] == "9" && "99.5"[3..] == "5";
    assert FindIndex(".5", IsExponentMark()) == None;
    assert FindIndex(".5", IsChar('.')) == Some(0);
    assert ".5"[..0] == "" && ".5"[1..] == "5";
  }

  /** An exponent scales by a power of ten. */
  lemma ExponentExample()
    ensures ParseNumber("1e3") == Some(1000.0)
  {
    assert FindIndex("1e3", IsExponentMark()) == Some(1);
    assert "1e3"[..1] == "1" && "1e3"[2..] == "3";
    assert DecimalValue("1") == Some(1.0) && ExponentValue("3") == Some(3);
    assert Pow10(3) == 1000.0;
  }

  /** A negative exponent divides by a power of ten, and the sign applies to
      the whole number. */
  lemma NegativeExponentExample()
    ensures ParseNumber("-2.5E-1") == Some(-0.25)
  {
    var u := "2.5E-1";
    assert "-2.5E-1"[1..] == u;
    assert DecimalValue("2.5") == Some(2.5) by {
      assert FindIndex("2.5", IsChar('.')) == Some(1);
      assert "2.5"[..1] == "2" && "2.5"[2..] == "5";
    }
    assert ExponentValue("-1") == Some(-1) by {
      assert "-1"[1..] == "1";
    }
    assert UnsignedValue(u) == Some(0.25) by {
      assert FindIndex(u, IsExponentMark()) == Some(3);
      assert u[..3] == "2.5" && u[4..] == "-1";
    }
  }

  /** A second '.' or a letter other than the exponent mark is NaN. */
  lemma NaNExamples()
    ensures ParseNumber("1.2.3") == None
    ensures ParseNumber("12a") == None
  {
    assert FindIndex("1.2.3", IsExponentMark()) == None;
    assert FindIndex("1.2.3", IsChar('.')) == Some(1);
    assert "1.2.3"[2..] == "2.3" && !IsDigit("2.3"[1]);
    assert !NumberChar("12a"[2]);
  }

  /** The decimal digits of a natural number, most significant first. */
  function Digits(n: nat): (s: string)
    ensures s != [] && AllDigits(s)
    decreases n
  {
    if n < 10 then [('0' as int + n) as char]
    else Digits(n / 10) + [('0' as int + n % 10) as char]
  }

  /** The text of an integer, as JavaScript's `String(n)` writes it. */
  function ShowNumber(n: int): string
  {
    if n < 0 then "-" + Digits(-n) else Digits(n)
  }

  lemma {:induction false} DigitsRoundTrip(n: nat)
    ensures DigitsValue(Digits(n)) == n
  {
    if n >= 10 {
      DigitsRoundTrip(n / 10);
      var s := Digits(n);
      assert s[..|s| - 1] == Digits(n / 10);
    }
  }

  /** `Number(String(n)) == n` for every integer. */
  lemma ParseShowRoundTrip(n: int)
    ensures ParseNumber(ShowNumber(n)) == Some(n as real)
  {
    if n < 0 {
      DigitsRoundTrip(-n);
      assert ("-" + Digits(-n))[1..] == Digits(-n);
    } else {
      DigitsRoundTrip(n);
    }
  }
}
