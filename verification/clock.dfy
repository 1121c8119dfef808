/**
 * Clock-time strings ("H:MM") and minutes since midnight: `timeToMins` and
 * `formatMinsToTime`. A booking stores its start as the rendered string and
 * the conflict check parses it back, so the round trip proved here is what
 * lets the conflict check see the bookings the slot generator produced.
 */
module Clock {
  import opened Wrappers

  predicate IsDigit(c: char) {
    '0' <= c <= '9'
  }

  predicate AllDigits(s: string) {
    forall i :: 0 <= i < |s| ==> IsDigit(s[i])
  }

  function DigitChar(d: nat): (c: char)
    requires d < 10
    ensures IsDigit(c) && (c as int) - ('0' as int) == d
  {
    (('0' as int) + d) as char
  }

  /** The value of a string of decimal digits, most significant first; "" is 0. */
  function DecimalValue(s: string): nat
    requires AllDigits(s)
  {
    if s == [] then 0
    else DecimalValue(s[..|s| - 1]) * 10 + ((s[|s| - 1] as int) - ('0' as int))
  }

  /** The unpadded decimal rendering of `n`, as a template literal prints it. */
  function NatToString(n: nat): (r: string)
    ensures |r| > 0 && AllDigits(r)
    ensures DecimalValue(r) == n
    ensures r[0] == '0' ==> n == 0 && |r| == 1
    ensures n < 10 <==> |r| == 1
  {
    if n < 10 then [DigitChar(n)]
    else
      var r := NatToString(n / 10) + [DigitChar(n % 10)];
      assert r[..|r| - 1] == NatToString(n / 10);
      r
  }

  /**
   * JavaScript's `Number` applied to one colon-separated field: "" is 0 and a
   * string of digits is its decimal value. Every other field (signs,
   * spaces, fractions, exponents, letters) is taken as NaN.
   */
  function FieldNumber(f: string): (r: Option<nat>)
    ensures r.Some? <==> AllDigits(f)
    ensures f == "" ==> r == Some(0)
  {
    if AllDigits(f) then Some(DecimalValue(f)) else None
  }

  /** The index of the first ':' in `s`, or `|s|` when there is none. */
  function ColonIndex(s: string): (k: nat)
    ensures k <= |s|
    ensures k < |s| ==> s[k] == ':'
    ensures forall i :: 0 <= i < k ==> s[i] != ':'
  {
    if s == [] || s[0] == ':' then 0 else 1 + ColonIndex(s[1..])
  }

  /**
   * `timeToMins`: the text is split at colons, the first two fields are read
   * as numbers, and the result is hours * 60 + minutes.
   * Only the first two fields count; with no ':' the minute field is
   * `undefined` and the sum NaN, modelled as None, as is a NaN field.
   */
  function TimeToMins(s: string): (r: Option<int>)
    ensures r.Some? ==> r.value >= 0
    ensures ColonIndex(s) == |s| ==> r == None
  {
    var k := ColonIndex(s);
    if k == |s| then None
    else
      var rest := s[k + 1..];
      Minutes(FieldNumber(s[..k]), FieldNumber(rest[..ColonIndex(rest)]))
  }

  /** `h * 60 + m`, NaN when either field is. */
  function Minutes(h: Option<nat>, m: Option<nat>): Option<int> {
    if h.Some? && m.Some? then Some(h.value * 60 + m.value) else None
  }

  /** The minute field of `formatMinsToTime`: "00", "0" + digit, or two digits. */
  function MinuteField(m: nat): (r: string)
    requires m < 60
    ensures |r| == 2 && AllDigits(r) && DecimalValue(r) == m
  {
    if m == 0 then "00"
    else if m < 10 then
      var r := "0" + NatToString(m);
      assert r[..1] == "0";
      r
    else NatToString(m)
  }

  /**
   * `formatMinsToTime`: the hour unpadded, a colon, the minutes padded to two
   * digits. Callers pass non-negative minute counts only.
   */
  function FormatMinsToTime(mins: nat): (r: string)
    ensures |r| >= 4 && r[|r| - 3] == ':'
    ensures AllDigits(r[..|r| - 3]) && AllDigits(r[|r| - 2..])
    ensures DecimalValue(r[..|r| - 3]) == mins / 60
    ensures DecimalValue(r[|r| - 2..]) == mins % 60
    ensures r[0] == '0' ==> |r| == 4
  {
    var hours, minutes := NatToString(mins / 60), MinuteField(mins % 60);
    assert (hours + ":" + minutes)[..|hours|] == hours && (hours + ":" + minutes)[|hours| + 1..] == minutes by {
      AroundSeparator(hours, ':', minutes);
    }
    assert (hours + ":" + minutes)[0] == hours[0];
    hours + ":" + minutes
  }

  /** The parts on either side of a separator placed between them. */
  lemma AroundSeparator<T>(a: seq<T>, x: T, b: seq<T>)
    ensures (a + [x] + b)[..|a|] == a && (a + [x] + b)[|a| + 1..] == b
  {
  }

  /** Parsing a rendered time gives back the minute count, for every count. */
  lemma {:induction false} RoundTrip(mins: nat)
    ensures TimeToMins(FormatMinsToTime(mins)) == Some(mins)
  {
    ParseRendered(FormatMinsToTime(mins), mins);
  }

  /** Digits, a colon, two digits: the shape `FormatMinsToTime` produces. */
  lemma {:induction false} ParseRendered(s: string, mins: nat)
    requires |s| >= 4 && s[|s| - 3] == ':'
    requires AllDigits(s[..|s| - 3]) && AllDigits(s[|s| - 2..])
    requires DecimalValue(s[..|s| - 3]) == mins / 60 && DecimalValue(s[|s| - 2..]) == mins % 60
    ensures TimeToMins(s) == Some(mins)
  {
    var k := |s| - 3;
    assert ColonIndex(s) == k by {
      ColonIndexOfDigitsThenColon(s, k);
    }
    assert s[k + 1..] == s[|s| - 2..];
    ParseHourMinute(s, k);
  }

  /** A string "digits:digits" parses to hours * 60 + minutes. */
  lemma {:induction false} ParseHourMinute(s: string, k: nat)
    requires k < |s| && ColonIndex(s) == k
    requires AllDigits(s[..k]) && AllDigits(s[k + 1..])
    ensures TimeToMins(s) == Some(DecimalValue(s[..k]) * 60 + DecimalValue(s[k + 1..]))
  {
    var hours, rest := s[..k], s[k + 1..];
    var h := FieldNumber(hours);
    var m := FieldNumber(rest[..ColonIndex(rest)]);
    assert h == Some(DecimalValue(hours));
    assert m == Some(DecimalValue(rest)) by {
      ColonIndexOfDigits(rest);
      assert rest[..|rest|] == rest;
    }
  }

  lemma {:induction false} ColonIndexOfDigitsThenColon(s: string, k: nat)
    requires k < |s| && s[k] == ':'
    requires forall i :: 0 <= i < k ==> IsDigit(s[i])
    ensures ColonIndex(s) == k
  {
    if k > 0 {
      ColonIndexOfDigitsThenColon(s[1..], k - 1);
    }
  }

  lemma {:induction false} ColonIndexOfDigits(s: string)
    requires AllDigits(s)
    ensures ColonIndex(s) == |s|
  {
    if s != [] {
      ColonIndexOfDigits(s[1..]);
    }
  }

  /** Two renderings the booking screens rely on: 600 is "10:00" and 545 is "9:05". */
  lemma {:induction false} RenderingExamples()
    ensures FormatMinsToTime(600) == "10:00"
    ensures FormatMinsToTime(545) == "9:05"
  {
    assert FormatMinsToTime(600) == "10:00" by {
      assert NatToString(10) == "10" by {
        assert NatToString(1) == "1";
      }
      assert 600 / 60 == 10 && 600 % 60 == 0;
      assert MinuteField(0) == "00";
      assert FormatMinsToTime(600) == NatToString(10) + ":" + MinuteField(0);
    }
    assert FormatMinsToTime(545) == "9:05" by {
      assert NatToString(9) == "9";
      assert MinuteField(5) == "05" by {
        assert NatToString(5) == "5";
      }
      assert 545 / 60 == 9 && 545 % 60 == 5;
      assert FormatMinsToTime(545) == NatToString(9) + ":" + MinuteField(5);
    }
  }
}
