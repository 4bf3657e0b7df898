/**
 The `MM:SS` time formatter of cutter.py (`fmt_seconds`).

 Python renders the minutes and the seconds with the format spec `02d`:
 the decimal digits of a non-negative integer, left-padded with zeros to a
 width of at least two. Minutes are never clamped or rolled over into hours.
 Every caller passes a millisecond count divided by 1000, which `int()`
 truncates; on non-negative values that is integer division.

 `ParseClock` is an independent reading of the format back into whole
 seconds; the round-trip contracts connect the two.
 */
module TimeFormat {
  import opened Wrappers

  predicate IsDigit(c: char) {
    '0' <= c <= '9'
  }

  predicate AllDigits(s: string) {
    forall i :: 0 <= i < |s| ==> IsDigit(s[i])
  }

  function DigitValue(c: char): (d: nat)
    requires IsDigit(c)
    ensures d < 10
  {
    (c as int) - ('0' as int)
  }

  function DigitChar(d: nat): (c: char)
    requires d < 10
    ensures IsDigit(c) && DigitValue(c) == d
  {
    (('0' as int) + d) as char
  }

  /** The value of a string of decimal digits, most significant first. */
  function DecimalValue(s: string): nat
    requires AllDigits(s)
  {
    if |s| == 0 then 0 else 10 * DecimalValue(s[..|s| - 1]) + DigitValue(s[|s| - 1])
  }

  /** Python's `str(n)` for a non-negative integer: digits without leading zeros. */
  function Decimal(n: nat): (r: string)
    ensures |r| >= 1 && AllDigits(r)
    ensures r[0] == '0' <==> n == 0
    ensures |r| <= 2 <==> n < 100
  {
    if n < 10 then [DigitChar(n)] else Decimal(n / 10) + [DigitChar(n % 10)]
  }

  /** `k` zero characters. */
  function Zeros(k: nat): (z: string)
    ensures |z| == k && AllDigits(z)
  {
    if k == 0 then "" else "0" + Zeros(k - 1)
  }

  /** Left-pads `s` with '0' up to `width` characters; longer strings are kept whole. */
  function PadTo(width: nat, s: string): (r: string)
    ensures |r| == if |s| >= width then |s| else width
  {
    if |s| >= width then s else Zeros(width - |s|) + s
  }

  /** Python's `f"{n:02d}"` for a non-negative integer. */
  function Format02(n: nat): (r: string)
    ensures |r| >= 2 && AllDigits(r) && DecimalValue(r) == n
  {
    DecimalRoundTrip(n);
    PaddingKeepsValue(2, Decimal(n));
    PadTo(2, Decimal(n))
  }

  /**
   `fmt_seconds` applied to a whole number of seconds: the minutes field,
   a colon and a two-digit seconds field, which read back as `sec`.
   */
  function FmtSeconds(sec: nat): (r: string)
    ensures |r| >= 5 && r[|r| - 3] == ':'
    ensures ParseClock(r) == Some(sec)
  {
    var m := Format02(sec / 60);
    var s := Format02(sec % 60);
    SecondsFieldWidth(sec % 60);
    ParseJoined(m, s);
    m + ":" + s
  }

  /** `fmt_seconds(ms / 1000)` as every caller in cutter.py writes it. */
  function FmtMillis(ms: nat): (r: string)
    ensures ParseClock(r) == Some(ms / 1000)
  {
    FmtSeconds(ms / 1000)
  }

  /**
   Reads `M…M:SS` back as whole seconds: at least one minute digit, a colon,
   exactly two second digits with value below 60. Anything else is `None`.
   */
  function ParseClock(s: string): Option<nat> {
    if |s| >= 4 && s[|s| - 3] == ':' && AllDigits(s[..|s| - 3]) && AllDigits(s[|s| - 2..])
       && DecimalValue(s[|s| - 2..]) < 60
    then Some(60 * DecimalValue(s[..|s| - 3]) + DecimalValue(s[|s| - 2..]))
    else None
  }

  lemma {:induction false} DecimalRoundTrip(n: nat)
    ensures DecimalValue(Decimal(n)) == n
  {
    if n >= 10 {
      var r := Decimal(n);
      assert r[..|r| - 1] == Decimal(n / 10);
      DecimalRoundTrip(n / 10);
    }
  }

  /** A leading zero does not change a digit string's value. */
  lemma {:induction false} LeadingZeroKeepsValue(s: string)
    requires AllDigits(s)
    ensures AllDigits("0" + s) && DecimalValue("0" + s) == DecimalValue(s)
  {
    var z := "0" + s;
    assert AllDigits(z) by {
      forall i | 0 <= i < |z| ensures IsDigit(z[i]) {
        if i > 0 { assert z[i] == s[i - 1]; }
      }
    }
    if |s| > 0 {
      var p := s[..|s| - 1];
      assert z[..|z| - 1] == "0" + p;
      LeadingZeroKeepsValue(p);
    }
  }

  lemma {:induction false} ZerosKeepValue(k: nat, s: string)
    requires AllDigits(s)
    ensures AllDigits(Zeros(k) + s) && DecimalValue(Zeros(k) + s) == DecimalValue(s)
  {
    if k > 0 {
      ZerosKeepValue(k - 1, s);
      assert Zeros(k) + s == "0" + (Zeros(k - 1) + s);
      LeadingZeroKeepsValue(Zeros(k - 1) + s);
    } else {
      assert Zeros(k) + s == s;
    }
  }

  lemma PaddingKeepsValue(width: nat, s: string)
    requires AllDigits(s)
    ensures AllDigits(PadTo(width, s)) && DecimalValue(PadTo(width, s)) == DecimalValue(s)
  {
    if |s| < width {
      ZerosKeepValue(width - |s|, s);
    }
  }

  /** A seconds value 0..59 renders as exactly two digits. */
  lemma SecondsFieldWidth(k: nat)
    requires k < 60
    ensures |Format02(k)| == 2
  {
  }

  /**
   The `02d` field: exactly two characters below 100, otherwise the plain
   digits with no leading zero, so nothing is ever clamped.
   */
  lemma Format02Width(n: nat)
    ensures n < 100 <==> |Format02(n)| == 2
    ensures |Format02(n)| > 2 ==> Format02(n) == Decimal(n) && Format02(n)[0] != '0'
  {
  }

  /** A minutes field, a colon and a two-digit seconds field below 60 parse to their total. */
  lemma ParseJoined(m: string, s: string)
    requires |m| >= 1 && AllDigits(m)
    requires |s| == 2 && AllDigits(s) && DecimalValue(s) < 60
    ensures ParseClock(m + ":" + s) == Some(60 * DecimalValue(m) + DecimalValue(s))
  {
    var r := m + ":" + s;
    assert r[..|r| - 3] == m;
    assert r[|r| - 2..] == s;
  }

  /** Distinct whole-second values never share a rendering. */
  lemma FmtSecondsInjective(a: nat, b: nat)
    ensures FmtSeconds(a) == FmtSeconds(b) ==> a == b
  {
  }

  /**
   The shape of the output: minutes `sec / 60` zero-padded to at least two
   digits and exactly two below 100 minutes, then a colon, then the seconds
   `sec % 60` as exactly two digits.
   */
  lemma FmtSecondsFields(sec: nat)
    ensures var r := FmtSeconds(sec);
      && AllDigits(r[..|r| - 3]) && DecimalValue(r[..|r| - 3]) == sec / 60
      && AllDigits(r[|r| - 2..]) && DecimalValue(r[|r| - 2..]) == sec % 60
      && |r[..|r| - 3]| >= 2
      && (sec < 6000 <==> |r[..|r| - 3]| == 2)
      && (sec >= 6000 ==> r[0] != '0')
  {
    var m, s := Format02(sec / 60), Format02(sec % 60);
    var r := FmtSeconds(sec);
    assert r == m + ":" + s;
    assert r[..|r| - 3] == m;
    assert r[|r| - 2..] == s;
    Format02Width(sec / 60);
  }

  lemma Format02Examples()
    ensures Format02(0) == "00" && Format02(1) == "01" && Format02(3) == "03" && Format02(5) == "05"
  {
    assert Decimal(0) == "0" && Decimal(1) == "1" && Decimal(3) == "3" && Decimal(5) == "5";
  }

  lemma Format02WideExamples()
    ensures Format02(61) == "61" && Format02(100) == "100"
  {
    assert Decimal(6) == "6" && Decimal(61) == "61";
    assert Decimal(10) == "10" && Decimal(100) == "100";
  }

  /** `FmtSeconds` joins the two `02d` fields around a colon. */
  lemma FmtSecondsJoin(sec: nat, m: string, s: string)
    requires Format02(sec / 60) == m && Format02(sec % 60) == s
    ensures FmtSeconds(sec) == m + ":" + s
  {
  }

  /** The worked examples of short durations. */
  lemma FmtSecondsExamples()
    ensures FmtSeconds(0) == "00:00"
    ensures FmtSeconds(65) == "01:05"
  {
    Format02Examples();
    FmtSecondsJoin(0, "00", "00");
    assert "00" + ":" + "00" == "00:00";
    FmtSecondsJoin(65, "01", "05");
    assert "01" + ":" + "05" == "01:05";
  }

  /** No rollover into hours at 61 minutes. */
  lemma FmtSecondsPastAnHour()
    ensures FmtSeconds(3661) == "61:01"
  {
    Format02Examples();
    Format02WideExamples();
    FmtSecondsJoin(3661, "61", "01");
    assert "61" + ":" + "01" == "61:01";
  }

  /** No clamp to two minute digits at 100 minutes. */
  lemma FmtSecondsHundredMinutes()
    ensures FmtSeconds(6000) == "100:00"
  {
    Format02Examples();
    Format02WideExamples();
    FmtSecondsJoin(6000, "100", "00");
    assert "100" + ":" + "00" == "100:00";
  }

  lemma FmtMillisExample()
    ensures FmtMillis(180000) == "03:00"
  {
    Format02Examples();
    FmtSecondsJoin(180, "03", "00");
    assert "03" + ":" + "00" == "03:00";
  }
}
