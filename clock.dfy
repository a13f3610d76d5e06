/**
 * Reading back the clock strings the app prints (`M:SS`, `H:MM:SS`): each colon-separated
 * field is a decimal numeral, and each field to the left counts sixty of the next.
 * This is the inverse the duration formatters are proved against.
 */
module Clock {
  import opened Text

  /** `s.split(":")`. */
  function SplitColons(s: string): (r: seq<string>)
    decreases |s|
    ensures r != []
  {
    var n := RunLength(s, 0, NotColon);
    if n == |s| then [s] else [s[..n]] + SplitColons(s[n + 1..])
  }

  /** The fields read as one number of seconds: each field counts sixty of the next. */
  function ClockValue(fields: seq<string>): nat {
    if fields == [] then 0 else ClockValue(fields[..|fields| - 1]) * 60 + ValueOf(fields[|fields| - 1], 10)
  }

  function ParseClock(s: string): nat {
    ClockValue(SplitColons(s))
  }

  /** Every field is a numeral of at most two digits below 60, except possibly the first. */
  predicate WellFormedClock(s: string) {
    var fields := SplitColons(s);
    (forall k :: 0 <= k < |fields| ==> fields[k] != [] && AllIn(fields[k], DecimalDigits))
    && forall k :: 1 <= k < |fields| ==> |fields[k]| == 2 && ValueOf(fields[k], 10) < 60
  }

  lemma SplitNumeral(a: string)
    requires AllIn(a, DecimalDigits)
    ensures SplitColons(a) == [a]
  {
    assert RunLength(a, 0, NotColon) == |a|;
  }

  lemma SplitNumeralThen(a: string, rest: string)
    requires AllIn(a, DecimalDigits)
    ensures SplitColons(a + ":" + rest) == [a] + SplitColons(rest)
  {
    var s := a + ":" + rest;
    var n := RunLength(s, 0, NotColon);
    assert s[|a|] == ':';
    assert forall k :: 0 <= k < |a| ==> s[k] == a[k];
    assert n == |a|;
    assert s[..n] == a;
    assert s[n + 1..] == rest;
  }

  lemma ClockValueSnoc(fields: seq<string>, last: string)
    ensures ClockValue(fields + [last]) == ClockValue(fields) * 60 + ValueOf(last, 10)
  {
    assert (fields + [last])[..|fields|] == fields;
  }

  lemma SplitTwoFields(a: string, b: string)
    requires AllIn(a, DecimalDigits) && AllIn(b, DecimalDigits)
    ensures SplitColons(a + ":" + b) == [a, b]
  {
    SplitNumeralThen(a, b);
    SplitNumeral(b);
    assert [a] + [b] == [a, b];
  }

  /** `a:b` reads as `60a + b`. */
  lemma ParseTwoFields(a: string, b: string)
    requires AllIn(a, DecimalDigits) && AllIn(b, DecimalDigits)
    ensures SplitColons(a + ":" + b) == [a, b]
    ensures ParseClock(a + ":" + b) == ValueOf(a, 10) * 60 + ValueOf(b, 10)
  {
    SplitTwoFields(a, b);
    ClockValueSnoc([], a);
    ClockValueSnoc([a], b);
    assert [a] + [b] == [a, b];
    assert [] + [a] == [a];
  }

  lemma ClockValueThree(a: string, b: string, c: string)
    ensures ClockValue([a, b, c]) == (ValueOf(a, 10) * 60 + ValueOf(b, 10)) * 60 + ValueOf(c, 10)
  {
    ClockValueSnoc([], a);
    ClockValueSnoc([a], b);
    ClockValueSnoc([a, b], c);
    assert [] + [a] == [a];
    assert [a] + [b] == [a, b];
    assert [a, b] + [c] == [a, b, c];
  }

  lemma SplitThreeFields(a: string, b: string, c: string)
    requires AllIn(a, DecimalDigits) && AllIn(b, DecimalDigits) && AllIn(c, DecimalDigits)
    ensures SplitColons(a + ":" + b + ":" + c) == [a, b, c]
  {
    var bc := b + ":" + c;
    assert a + ":" + b + ":" + c == a + ":" + bc;
    SplitNumeralThen(a, bc);
    SplitTwoFields(b, c);
    assert [a] + [b, c] == [a, b, c];
  }

  /** `a:b:c` reads as `3600a + 60b + c`. */
  lemma ParseThreeFields(a: string, b: string, c: string)
    requires AllIn(a, DecimalDigits) && AllIn(b, DecimalDigits) && AllIn(c, DecimalDigits)
    ensures SplitColons(a + ":" + b + ":" + c) == [a, b, c]
    ensures ParseClock(a + ":" + b + ":" + c) == (ValueOf(a, 10) * 60 + ValueOf(b, 10)) * 60 + ValueOf(c, 10)
  {
    SplitThreeFields(a, b, c);
    ClockValueThree(a, b, c);
  }

  /**
   * `${Math.floor(t / 60)}:${Math.floor(t % 60).toString().padStart(2, '0')}`, the players'
   * `m:ss` clock: minutes are not carried into hours, so it always has two fields.
   */
  function MinutesSeconds(n: nat): (r: string)
    ensures ParseClock(r) == n && WellFormedClock(r) && |SplitColons(r)| == 2
  {
    MinutesSecondsClock(n);
    NatToString(n / 60) + ":" + Pad2(NatToString(n % 60))
  }

  lemma MinutesSecondsClock(n: nat)
    ensures var r := NatToString(n / 60) + ":" + Pad2(NatToString(n % 60));
      ParseClock(r) == n && WellFormedClock(r) && |SplitColons(r)| == 2
  {
    DivideBySixty(n);
    TwoFieldClock(n / 60, n % 60);
  }

  /** The clock `q:ss` reads back as `60q + s`. */
  lemma TwoFieldClock(q: nat, sec: nat)
    requires sec < 60
    ensures var r := NatToString(q) + ":" + Pad2(NatToString(sec));
      ParseClock(r) == q * 60 + sec && WellFormedClock(r) && |SplitColons(r)| == 2
  {
    Pad2Value(sec);
    ParseTwoFields(NatToString(q), Pad2(NatToString(sec)));
  }

  /** The `h:mm:ss` clock of `n` seconds. */
  lemma HoursClock(n: nat)
    ensures var r := NatToString(n / 3600) + ":" + Pad2(NatToString(n % 3600 / 60)) + ":" + Pad2(NatToString(n % 60));
      ParseClock(r) == n && WellFormedClock(r) && |SplitColons(r)| == 3
  {
    HoursArithmetic(n);
    ThreeFieldClock(n / 3600, n % 3600 / 60, n % 60);
  }

  /** The clock `h:mm:ss` reads back as `3600h + 60m + s`. */
  lemma ThreeFieldClock(h: nat, m: nat, sec: nat)
    requires m < 60 && sec < 60
    ensures var r := NatToString(h) + ":" + Pad2(NatToString(m)) + ":" + Pad2(NatToString(sec));
      ParseClock(r) == (h * 60 + m) * 60 + sec && WellFormedClock(r) && |SplitColons(r)| == 3
  {
    Pad2Value(m);
    Pad2Value(sec);
    ThreeNumerals(NatToString(h), Pad2(NatToString(m)), Pad2(NatToString(sec)));
  }

  /** Three numerals joined by colons, the last two of two digits below 60, form a well-formed clock. */
  lemma ThreeNumerals(a: string, b: string, c: string)
    requires a != [] && AllIn(a, DecimalDigits)
    requires |b| == 2 && AllIn(b, DecimalDigits) && ValueOf(b, 10) < 60
    requires |c| == 2 && AllIn(c, DecimalDigits) && ValueOf(c, 10) < 60
    ensures var r := a + ":" + b + ":" + c;
      ParseClock(r) == (ValueOf(a, 10) * 60 + ValueOf(b, 10)) * 60 + ValueOf(c, 10)
      && WellFormedClock(r) && |SplitColons(r)| == 3
  {
    ParseThreeFields(a, b, c);
    WellFormedThree(a + ":" + b + ":" + c, a, b, c);
  }

  lemma WellFormedThree(s: string, a: string, b: string, c: string)
    requires SplitColons(s) == [a, b, c]
    requires a != [] && AllIn(a, DecimalDigits)
    requires |b| == 2 && AllIn(b, DecimalDigits) && ValueOf(b, 10) < 60
    requires |c| == 2 && AllIn(c, DecimalDigits) && ValueOf(c, 10) < 60
    ensures WellFormedClock(s)
  {
    var fields := SplitColons(s);
    forall k | 0 <= k < |fields|
      ensures fields[k] != [] && AllIn(fields[k], DecimalDigits)
      ensures k >= 1 ==> |fields[k]| == 2 && ValueOf(fields[k], 10) < 60
    {
      if k == 0 {
        assert fields[k] == a;
      } else if k == 1 {
        assert fields[k] == b;
      } else {
        assert fields[k] == c;
      }
    }
  }

  lemma DivideBySixty(n: nat)
    ensures n % 60 < 60 && n / 60 * 60 + n % 60 == n
  {
  }

  lemma HoursArithmetic(n: nat)
    ensures n % 3600 / 60 < 60 && n % 60 < 60
    ensures (n / 3600 * 60 + n % 3600 / 60) * 60 + n % 60 == n
  {
    var h, r := n / 3600, n % 3600;
    assert n == h * 3600 + r;
    assert r == r / 60 * 60 + r % 60;
    assert r % 60 == n % 60 by {
      assert n == (h * 60) * 60 + r;
    }
  }
}
