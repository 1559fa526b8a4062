/** The JavaScript string operations the application relies on:
    `Array.prototype.join`, integer-to-string conversion, the first element of
    `String.prototype.split` with a literal separator, and `includes`. */
module Text {
  import opened Wrappers

  /** `parts.join(sep)`. */
  function Join(parts: seq<string>, sep: string): string
  {
    if |parts| == 0 then ""
    else if |parts| == 1 then parts[0]
    else parts[0] + sep + Join(parts[1..], sep)
  }

  /** Joining a head in front of a non-empty tail puts exactly one separator between them. */
  lemma JoinCons(head: string, tail: seq<string>, sep: string)
    requires tail != []
    ensures Join([head] + tail, sep) == head + sep + Join(tail, sep)
  {
    assert ([head] + tail)[1..] == tail;
  }

  /** `t` occurs in `s` starting at index `i`. */
  predicate OccursAt(s: string, t: string, i: nat)
  {
    i + |t| <= |s| && s[i..i + |t|] == t
  }

  /** `s.includes(t)` */
  predicate Contains(s: string, t: string)
  {
    exists i: nat | i <= |s| :: OccursAt(s, t, i)
  }

  /** A head free of the separator character is recovered from the joined
      string: the first separator is the one that was inserted. */
  lemma {:induction false} SeparatorSplitsUniquely(k1: string, s1: string, k2: string, s2: string, c: char)
    requires c !in k1 && c !in k2
    requires k1 + [c] + s1 == k2 + [c] + s2
    ensures k1 == k2 && s1 == s2
  {
    var u := k1 + [c] + s1;
    AfterFirstOfJoin(k1, c, s1);
    AfterFirstOfJoin(k2, c, s2);
    assert |k1| == |k2|;
    assert k1 == u[..|k1|] == k2;
  }

  // ---------------------------------------------------------------------------
  // Integers as decimal strings (`${n}` for an integral JavaScript number)

  function DigitChar(d: int): (c: char)
    requires 0 <= d < 10
    ensures IsDigit(c) && c as int - '0' as int == d
  {
    ('0' as int + d) as char
  }

  predicate IsDigit(c: char) { '0' <= c <= '9' }

  predicate AllDigits(s: string) { forall i :: 0 <= i < |s| ==> IsDigit(s[i]) }

  /** Decimal digits of a natural number, most significant first, no leading zero. */
  function NatDigits(n: nat): (r: string)
    ensures |r| >= 1 && AllDigits(r)
    ensures r[0] == '0' ==> n == 0
    decreases n
  {
    if n < 10 then [DigitChar(n)] else NatDigits(n / 10) + [DigitChar(n % 10)]
  }

  /** `String(n)` for an integer `n`: a minus sign for negatives, then the digits. */
  function Decimal(n: int): (r: string)
    ensures |r| >= 1
    ensures forall i :: 0 <= i < |r| ==> IsDigit(r[i]) || (i == 0 && r[i] == '-')
  {
    if n < 0 then "-" + NatDigits(-n) else NatDigits(n)
  }

  /** Reads back a string of digits: the reference reading of a decimal numeral. */
  function DigitsValue(s: string): (v: nat)
    requires AllDigits(s)
  {
    if |s| == 0 then 0
    else DigitsValue(s[..|s| - 1]) * 10 + (s[|s| - 1] as int - '0' as int)
  }

  /** Reads back an optionally signed decimal numeral. */
  function DecimalValue(s: string): int
    requires |s| >= 1
    requires forall i :: 0 <= i < |s| ==> IsDigit(s[i]) || (i == 0 && s[i] == '-')
  {
    if s[0] == '-' then -(DigitsValue(s[1..]) as int) else DigitsValue(s)
  }

  lemma {:induction false} NatDigitsRoundTrip(n: nat)
    ensures DigitsValue(NatDigits(n)) == n
    decreases n
  {
    var s := NatDigits(n);
    if n >= 10 {
      NatDigitsRoundTrip(n / 10);
      assert s[..|s| - 1] == NatDigits(n / 10);
    }
  }

  /** Rendering an integer in decimal loses nothing. */
  lemma DecimalRoundTrip(n: int)
    ensures DecimalValue(Decimal(n)) == n
  {
    if n < 0 {
      NatDigitsRoundTrip(-n);
      assert Decimal(n)[1..] == NatDigits(-n);
    } else {
      NatDigitsRoundTrip(n);
    }
  }

  /** Different integers render as different strings. */
  lemma DecimalInjective(m: int, n: int)
    requires Decimal(m) == Decimal(n)
    ensures m == n
  {
    DecimalRoundTrip(m);
    DecimalRoundTrip(n);
  }

  // ---------------------------------------------------------------------------
  // `s.split(sep)[0]`: everything before the first occurrence of `sep`

  function BeforeFirst(s: string, sep: string): (r: string)
    requires |sep| > 0
    ensures r <= s
    ensures forall i: nat :: i < |r| ==> !OccursAt(s, sep, i)
    ensures r == s || OccursAt(s, sep, |r|)
    decreases |s|
  {
    if |s| < |sep| then s
    else if s[..|sep|] == sep then ""
    else
      var r := [s[0]] + BeforeFirst(s[1..], sep);
      OccursAtShift(s, sep);
      r
  }

  /** An occurrence past the first character is an occurrence in the tail. */
  lemma OccursAtShift(s: string, t: string)
    requires |s| >= 1
    ensures forall i: nat {:trigger OccursAt(s, t, i)} :: i >= 1 ==> (OccursAt(s, t, i) <==> OccursAt(s[1..], t, i - 1))
  {
    forall i: nat | i >= 1
      ensures OccursAt(s, t, i) <==> OccursAt(s[1..], t, i - 1)
    {
      if i + |t| <= |s| {
        var a, b := s[i..i + |t|], s[1..][i - 1..i - 1 + |t|];
        assert |a| == |b| && forall k :: 0 <= k < |a| ==> a[k] == b[k];
        assert a == b;
      }
    }
  }

  /** What `split(sep)[0]` returns never contains the separator. */
  lemma BeforeFirstHasNoSeparator(s: string, sep: string)
    requires |sep| > 0
    ensures !Contains(BeforeFirst(s, sep), sep)
  {
    var r := BeforeFirst(s, sep);
    forall i: nat | i <= |r| ensures !OccursAt(r, sep, i) {
      if i + |sep| <= |r| {
        assert !OccursAt(s, sep, i);
        assert r[i..i + |sep|] == s[i..i + |sep|];
      }
    }
  }

  /** Cutting at the first one-character separator recovers a head free of it. */
  lemma BeforeFirstOfJoin(head: string, c: char, tail: string)
    requires c !in head
    ensures BeforeFirst(head + [c] + tail, [c]) == head
  {
    var s := head + [c] + tail;
    var r := BeforeFirst(s, [c]);
    assert OccursAt(s, [c], |head|) by {
      assert s[|head|..|head| + 1] == [c];
    }
    forall i: nat | i < |head| ensures !OccursAt(s, [c], i) {
      assert s[i] == head[i];
    }
    assert |r| == |head|;
    assert r == s[..|head|] == head;
  }

  // ---------------------------------------------------------------------------
  // Everything after the first occurrence of a character

  function AfterFirst(s: string, c: char): Option<string>
  {
    if |s| == 0 then None
    else if s[0] == c then Some(s[1..])
    else AfterFirst(s[1..], c)
  }

  /** Cutting at the first `c` recovers whatever followed a `c`-free head. */
  lemma {:induction false} AfterFirstOfJoin(head: string, c: char, tail: string)
    requires c !in head
    ensures AfterFirst(head + [c] + tail, c) == Some(tail)
    decreases |head|
  {
    var s := head + [c] + tail;
    if |head| == 0 {
      assert s[1..] == tail;
    } else {
      assert s[1..] == head[1..] + [c] + tail;
      AfterFirstOfJoin(head[1..], c, tail);
    }
  }
}
