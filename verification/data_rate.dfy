/**
 * The data-rate string codec of the forwarder: `"SF<n>BW<m>"` is split into
 * a spreading factor and a bandwidth (`_dr_to_sf`, `_dr_to_bw`) and put back
 * together (`_sf_bw_to_dr`). Python's `str(int)` and the part of `int(str)`
 * these functions can reach are modelled here too.
 */
module DataRate {
  import opened Wrappers

  /** The three bandwidths the radio offers (`LoRa.BW_125KHZ`, `BW_250KHZ`, `BW_500KHZ`). */
  datatype Bandwidth = BW125 | BW250 | BW500

  predicate IsDigit(c: char)
  {
    '0' <= c <= '9'
  }

  function DigitValue(c: char): (v: int)
    requires IsDigit(c)
    ensures 0 <= v <= 9
  {
    c as int - '0' as int
  }

  function DigitChar(v: int): (c: char)
    requires 0 <= v <= 9
    ensures IsDigit(c) && DigitValue(c) == v
  {
    ('0' as int + v) as char
  }

  /** The whitespace `int()` strips around a number: space, tab, line feed, vertical tab, form feed, carriage return. */
  predicate IsSpace(c: char)
  {
    c == ' ' || '\t' <= c <= '\r'
  }

  /** Python's `int(s)` for a one-character string `s == [c]`. */
  function IntOfOne(c: char): (r: Option<int>)
    ensures r.Some? <==> IsDigit(c)
  {
    if IsDigit(c) then Some(DigitValue(c)) else None
  }

  /** Python's `int(s)` for a two-character string `s == [a, b]` whose second character is a digit. */
  function IntOfTwo(a: char, b: char): (r: Option<int>)
    requires IsDigit(b)
    ensures r.Some? <==> IsDigit(a) || a == '+' || a == '-' || IsSpace(a)
    ensures r.Some? ==> -9 <= r.value <= 99
    ensures r.Some? && IsDigit(a) ==> r.value / 10 == DigitValue(a) && r.value % 10 == DigitValue(b)
    ensures r.Some? && !IsDigit(a) ==> r.value == if a == '-' then -DigitValue(b) else DigitValue(b)
  {
    if IsDigit(a) then Some(10 * DigitValue(a) + DigitValue(b))
    else if a == '+' || IsSpace(a) then Some(DigitValue(b))
    else if a == '-' then Some(-DigitValue(b))
    else None
  }

  /**
   * `_dr_to_sf`: the characters at positions 2 and 3, or only the one at 2
   * when the one at 3 is not a digit, read as an integer. A string shorter
   * than four characters fails (`sf[1]` is out of range), as does one whose
   * characters there are not a number. The "SF" prefix is not checked.
   */
  function DrToSf(dr: string): (r: Option<int>)
    ensures r.Some? ==> |dr| >= 4 && -9 <= r.value <= 99
    ensures |dr| >= 4 && IsDigit(dr[2]) ==> r.Some?
  {
    if |dr| < 4 then None
    else if IsDigit(dr[3]) then IntOfTwo(dr[2], dr[3])
    else IntOfOne(dr[2])
  }

  /** The last five characters of `s`, or all of `s` when it is shorter: Python's `s[-5:]`. */
  function LastFive(s: string): (t: string)
    ensures |t| == if |s| < 5 then |s| else 5
    ensures s == s[..|s| - |t|] + t
  {
    if |s| < 5 then s else s[|s| - 5..]
  }

  /** `_dr_to_bw`: a trailing "BW125" or "BW250" names that bandwidth, anything else means 500 kHz. */
  function DrToBw(dr: string): (bw: Bandwidth)
    ensures bw == BW125 <==> LastFive(dr) == "BW125"
    ensures bw == BW250 <==> LastFive(dr) == "BW250"
  {
    var tail := LastFive(dr);
    if tail == "BW125" then BW125
    else if tail == "BW250" then BW250
    else BW500
  }

  /** The suffix `_sf_bw_to_dr` writes for a bandwidth. */
  function BwSuffix(bw: Bandwidth): (s: string)
    ensures |s| == 5
  {
    match bw
    case BW125 => "BW125"
    case BW250 => "BW250"
    case BW500 => "BW500"
  }

  /** The decimal value of a string of digits. */
  function DigitsValue(s: string): (v: nat)
    requires forall i :: 0 <= i < |s| ==> IsDigit(s[i])
  {
    if s == [] then 0 else 10 * DigitsValue(s[..|s| - 1]) + DigitValue(s[|s| - 1])
  }

  /** Python's `str(n)` for a non-negative `n`: its decimal digits, without leading zeros. */
  function NatToString(n: nat): (s: string)
    ensures 1 <= |s|
    ensures forall i :: 0 <= i < |s| ==> IsDigit(s[i])
    ensures DigitsValue(s) == n
    ensures |s| == 1 <==> n < 10
    ensures |s| == 2 <==> 10 <= n < 100
    ensures s[0] == '0' ==> n == 0
  {
    if n < 10 then [DigitChar(n)]
    else
      var s := NatToString(n / 10) + [DigitChar(n % 10)];
      assert s[..|s| - 1] == NatToString(n / 10);
      s
  }

  /** Python's `str(n)` for any integer: a minus sign before the digits of a negative number. */
  function IntToString(n: int): (s: string)
    ensures |s| >= 1 && (s[0] == '-' <==> n < 0)
    ensures var digits := if n < 0 then s[1..] else s;
            |digits| >= 1 && (forall i :: 0 <= i < |digits| ==> IsDigit(digits[i])) &&
            DigitsValue(digits) == (if n < 0 then -n else n) &&
            (digits[0] == '0' ==> n == 0)
  {
    if n < 0 then "-" + NatToString(-n) else NatToString(n)
  }

  /** `_sf_bw_to_dr`: "SF", the spreading factor in decimal, then the bandwidth's suffix. */
  function SfBwToDr(sf: int, bw: Bandwidth): (dr: string)
    ensures |dr| == |IntToString(sf)| + 7
    ensures dr[..2] == "SF" && LastFive(dr) == BwSuffix(bw)
    ensures dr[2..|dr| - 5] == IntToString(sf)
  {
    "SF" + IntToString(sf) + BwSuffix(bw)
  }

  /**
   * The bandwidth survives a round trip through the data-rate string for
   * every spreading factor.
   */
  lemma BwRoundTrip(sf: int, bw: Bandwidth)
    ensures DrToBw(SfBwToDr(sf, bw)) == bw
  {
    var head := "SF" + IntToString(sf);
    assert SfBwToDr(sf, bw) == head + BwSuffix(bw);
    assert LastFive(head + BwSuffix(bw)) == BwSuffix(bw);
  }

  /** Where `_dr_to_sf` looks: characters 2 and 3 of a rebuilt data-rate string. */
  lemma {:induction false} SfWindow(sf: int, bw: Bandwidth)
    ensures |SfBwToDr(sf, bw)| >= 4
    ensures var dr := SfBwToDr(sf, bw);
            var s := IntToString(sf);
            dr[2] == s[0] && dr[3] == if |s| == 1 then 'B' else s[1]
  {
    var s := IntToString(sf);
    var dr := SfBwToDr(sf, bw);
    assert dr == "SF" + s + BwSuffix(bw);
    assert dr[2] == s[0];
    if |s| == 1 {
      assert dr[3] == BwSuffix(bw)[0];
    } else {
      assert dr[3] == s[1];
    }
  }

  /** `str(sf)` for -9..99 has one or two characters, which `_dr_to_sf` reads back as `sf`. */
  lemma {:induction false} SfNarrow(sf: int, bw: Bandwidth)
    requires -9 <= sf <= 99
    ensures DrToSf(SfBwToDr(sf, bw)) == Some(sf)
  {
    SfWindow(sf, bw);
    var s := IntToString(sf);
    if sf < 0 {
      assert s == ['-', DigitChar(-sf)];
    } else if sf < 10 {
      assert s == [DigitChar(sf)];
    } else {
      assert NatToString(sf) == NatToString(sf / 10) + [DigitChar(sf % 10)];
      assert s == [DigitChar(sf / 10), DigitChar(sf % 10)];
    }
  }

  /** For a spreading factor outside -9..99 `_dr_to_sf` reads only a two-character prefix of it back. */
  lemma {:induction false} SfWide(sf: int, bw: Bandwidth)
    requires sf < -9 || 99 < sf
    ensures DrToSf(SfBwToDr(sf, bw)) != Some(sf)
  {
    SfWindow(sf, bw);
    var s := IntToString(sf);
    if sf < 0 {
      var digits := NatToString(-sf);
      assert s[1] == digits[0] && IsDigit(digits[0]);
    } else {
      assert IsDigit(s[0]) && IsDigit(s[1]);
    }
  }

  /**
   * The spreading factor survives a round trip through the data-rate string
   * exactly when it is written with at most two characters, that is for
   * -9..99; a longer number is cut to its first two characters.
   */
  lemma {:induction false} SfRoundTrip(sf: int, bw: Bandwidth)
    ensures DrToSf(SfBwToDr(sf, bw)) == Some(sf) <==> -9 <= sf <= 99
  {
    if -9 <= sf <= 99 {
      SfNarrow(sf, bw);
    } else {
      SfWide(sf, bw);
    }
  }

  /** The configured default "SF7BW125" stands for spreading factor 7 at 125 kHz. */
  lemma DefaultDataRate()
    ensures DrToSf("SF7BW125") == Some(7) && DrToBw("SF7BW125") == BW125
    ensures DrToSf("SF12BW500") == Some(12) && DrToBw("SF12BW500") == BW500
  {
  }
}
