/**
 * Search: the blank-query test of `handleSearch` and the front-end filter it
 * falls back to when the search request fails.
 */
module Search {
  import opened Chars
  import opened Lessons

  /** `String.prototype.trimStart`: drops the leading whitespace. */
  function TrimStart(s: string): (r: string)
    ensures |r| <= |s| && r == s[|s| - |r|..]
    ensures forall i :: 0 <= i < |s| - |r| ==> IsSpace(s[i])
    ensures r == [] || !IsSpace(r[0])
  {
    if s != [] && IsSpace(s[0]) then TrimStart(s[1..]) else s
  }

  /** `String.prototype.trimEnd`: drops the trailing whitespace. */
  function TrimEnd(s: string): (r: string)
    ensures |r| <= |s| && r == s[..|r|]
    ensures forall i :: |r| <= i < |s| ==> IsSpace(s[i])
    ensures r == [] || !IsSpace(r[|r| - 1])
  {
    if s != [] && IsSpace(s[|s| - 1]) then TrimEnd(s[..|s| - 1]) else s
  }

  /** `String.prototype.trim` */
  function Trim(s: string): string {
    TrimEnd(TrimStart(s))
  }

  /** `!query.trim()`: the query trims to the empty string. */
  predicate IsBlank(query: string) {
    Trim(query) == ""
  }

  /** A query is blank exactly when every character of it is whitespace. */
  lemma BlankIffAllSpace(query: string)
    ensures IsBlank(query) <==> forall i :: 0 <= i < |query| ==> IsSpace(query[i])
  {
  }

  /** needle occurs in hay starting at position i. */
  predicate OccursAt(hay: string, needle: string, i: nat) {
    i + |needle| <= |hay| && hay[i..i + |needle|] == needle
  }

  /** `hay.includes(needle)`: needle occurs in hay at some position. */
  predicate Contains(hay: string, needle: string) {
    exists i: nat | i <= |hay| :: OccursAt(hay, needle, i)
  }

  function DigitChar(d: nat): (c: char)
    requires d < 10
    ensures IsDigit(c)
  {
    ('0' as int + d) as char
  }

  /** The decimal digits of n, most significant first, with no leading zero. */
  function Digits(n: nat): (r: string)
    ensures r != [] && forall i :: 0 <= i < |r| ==> IsDigit(r[i])
    ensures r[0] == '0' ==> r == "0"
    decreases n
  {
    if n < 10 then [DigitChar(n)] else Digits(n / 10) + [DigitChar(n % 10)]
  }

  /** The digits of a signed decimal string: all of it, or what follows a leading '-'. */
  function Magnitude(s: string): string {
    if s != [] && s[0] == '-' then s[1..] else s
  }

  /**
   * `Number.prototype.toString()` of an integer: a '-' exactly for negative
   * numbers, then a non-empty run of digits with no leading zero (zero
   * itself is "0").
   */
  function DecimalString(n: int): (r: string)
    ensures r != [] && (r[0] == '-' <==> n < 0)
    ensures Magnitude(r) != [] && forall i :: 0 <= i < |Magnitude(r)| ==> IsDigit(Magnitude(r)[i])
    ensures Magnitude(r)[0] == '0' ==> Magnitude(r) == "0"
  {
    if n < 0 then "-" + Digits(-n) else Digits(n)
  }

  /** Reads a run of decimal digits, most significant first. */
  function DigitsValue(s: string): int
    requires forall i :: 0 <= i < |s| ==> IsDigit(s[i])
  {
    if s == [] then 0 else 10 * DigitsValue(s[..|s| - 1]) + (s[|s| - 1] as int - '0' as int)
  }

  /** Reading the digits back gives the number: the decimal form loses nothing. */
  lemma {:induction false} DigitsRoundTrip(n: nat)
    ensures DigitsValue(Digits(n)) == n
    decreases n
  {
    if n >= 10 {
      var s := Digits(n);
      assert s[..|s| - 1] == Digits(n / 10);
      DigitsRoundTrip(n / 10);
    }
  }

  /** Reads a signed decimal string: its digits, negated when it starts with '-'. */
  function SignedValue(s: string): int
    requires forall i :: 0 <= i < |Magnitude(s)| ==> IsDigit(Magnitude(s)[i])
  {
    if s != [] && s[0] == '-' then -DigitsValue(Magnitude(s)) else DigitsValue(Magnitude(s))
  }

  /** Reading the decimal string back gives the integer. */
  lemma DecimalStringRoundTrip(n: int)
    ensures SignedValue(DecimalString(n)) == n
  {
    if n < 0 {
      assert DecimalString(n)[1..] == Digits(-n);
      DigitsRoundTrip(-n);
    } else {
      DigitsRoundTrip(n);
    }
  }

  /** Distinct integers have distinct decimal strings. */
  lemma DecimalStringInjective(m: int, n: int)
    requires DecimalString(m) == DecimalString(n)
    ensures m == n
  {
    DecimalStringRoundTrip(m);
    DecimalStringRoundTrip(n);
  }

  /**
   * The fallback filter's test for one lesson: the lower-cased subject or
   * location contains the lower-cased query, or the price or spaces written
   * in decimal contain the query as typed.
   */
  predicate Matches(l: Lesson, query: string)
    reads l
  {
    || Contains(Lower(l.subject), Lower(query))
    || Contains(Lower(l.location), Lower(query))
    || Contains(DecimalString(l.price), query)
    || Contains(DecimalString(l.spaces), query)
  }

  /** What the filter keeps of one lesson: the lesson itself if it matches, else nothing. */
  function Keep(l: Lesson, query: string): (r: seq<Lesson>)
    reads l
    ensures r == [l] || r == []
    ensures l in r <==> Matches(l, query)
  {
    if Matches(l, query) then [l] else []
  }

  /** `lessons.filter(lesson => Matches(lesson, query))`: the same objects, not copies. */
  function FallbackSearch(ls: seq<Lesson>, query: string): (r: seq<Lesson>)
    reads ls
    ensures |r| <= |ls|
    ensures forall l :: l in r ==> l in ls && Matches(l, query)
    ensures forall l :: l in ls && Matches(l, query) ==> l in r
  {
    if ls == [] then [] else Keep(ls[0], query) + FallbackSearch(ls[1..], query)
  }

  /** Filtering two lists put end to end filters each and keeps them in order. */
  lemma {:induction false} FallbackSearchConcat(a: seq<Lesson>, b: seq<Lesson>, query: string)
    ensures FallbackSearch(a + b, query) == FallbackSearch(a, query) + FallbackSearch(b, query)
  {
    if a == [] {
      assert a + b == b;
    } else {
      var ab := a + b;
      assert ab[0] == a[0] && ab[1..] == a[1..] + b;
      FallbackSearchConcat(a[1..], b, query);
      assert FallbackSearch(ab, query) == Keep(a[0], query) + FallbackSearch(a[1..] + b, query);
    }
  }

  /** Each lesson is kept, in place, exactly when it matches. */
  lemma FallbackSearchSingle(l: Lesson, query: string)
    ensures FallbackSearch([l], query) == if Matches(l, query) then [l] else []
  {
  }
}
