/** The inserter's date and time formatting: X12 CCYYMMDD dates become
    ISO dates, HHMM[SS[DD]] times become HH:MM:SS[.DD]. */
module Formats {
  import opened Wrappers
  import opened Text

  /** `s` with every character of `drop` removed: the inverse of inserting
      separators into a run of digits. */
  function Strip(s: string, drop: set<char>): (r: string)
    ensures |r| <= |s|
    decreases |s|
  {
    if s == [] then [] else (if s[0] in drop then [] else [s[0]]) + Strip(s[1..], drop)
  }

  lemma {:induction false} StripAppend(a: string, b: string, drop: set<char>)
    ensures Strip(a + b, drop) == Strip(a, drop) + Strip(b, drop)
    decreases |a|
  {
    if a == [] {
      assert a + b == b;
    } else {
      assert (a + b)[1..] == a[1..] + b;
      StripAppend(a[1..], b, drop);
    }
  }

  lemma {:induction false} StripKeeps(s: string, drop: set<char>)
    requires forall i :: 0 <= i < |s| ==> s[i] !in drop
    ensures Strip(s, drop) == s
    decreases |s|
  {
    if s != [] {
      StripKeeps(s[1..], drop);
    }
  }

  /** Turns an eight-digit date into year-month-day separated by dashes;
      anything but exactly eight digits is an error. */
  function FormatEightDigitDate(s: string): (r: Result<string>)
    ensures r.Ok? <==> |s| == 8 && IsDigits(s)
    ensures r.Ok? ==> |r.value| == 10 && r.value[4] == '-' && r.value[7] == '-'
    ensures r.Ok? ==> forall i :: 0 <= i < 10 && i != 4 && i != 7 ==> IsDigit(r.value[i])
  {
    if |s| != 8 || !IsDigits(s) then Err("Invalid date string. Expected 8 digits (YYYYMMDD).")
    else
      var year, month, day := Substring(s, 0, 4), Substring(s, 4, 6), Substring(s, 6, 8);
      Ok(year + "-" + month + "-" + day)
  }

  /** Removing the dashes from a formatted date gives the eight digits back. */
  lemma {:induction false} DateRoundTrip(s: string)
    requires |s| == 8 && IsDigits(s)
    ensures Strip(FormatEightDigitDate(s).value, {'-'}) == s
  {
    var d := {'-'};
    var y, m, dd := s[0..4], s[4..6], s[6..8];
    assert FormatEightDigitDate(s).value == y + "-" + m + "-" + dd;
    StripKeeps(y, d);
    StripKeeps(m, d);
    StripKeeps(dd, d);
    assert Strip("-", d) == "";
    calc {
      Strip(y + "-" + m + "-" + dd, d);
    == { StripAppend(y + "-" + m + "-", dd, d); }
      Strip(y + "-" + m + "-", d) + dd;
    == { StripAppend(y + "-" + m, "-", d); }
      Strip(y + "-" + m, d) + dd;
    == { StripAppend(y + "-", m, d); }
      Strip(y + "-", d) + m + dd;
    == { StripAppend(y, "-", d); }
      y + m + dd;
    }
    assert y + m + dd == s;
  }

  /** The time formatter as the source writes it: its guard rejects every
      string of four or more characters, so only one to three digits pass,
      and those are cut into malformed pieces. */
  function FormatTimeAsWritten(s: string): (r: Result<string>)
    ensures r.Ok? <==> |s| < 4 && IsDigits(s)
    ensures r.Ok? ==> 4 <= |r.value| && r.value[|r.value| - 3..] == ":00" && '.' !in r.value
  {
    if |s| >= 4 || !IsDigits(s) then
      Err("Invalid time string. Expected at least 4 digits (HHMM, HHMMSS, HHMMSSDD).")
    else
      var hour, min := Substring(s, 0, 2), Substring(s, 2, 4);
      var sec := if |s| > 4 then Substring(s, 4, 6) else "00";
      var time := hour + ":" + min + ":" + sec;
      Ok(if |s| > 6 then time + "." + Substring(s, 6, 8) else time)
  }

  /** Every well-formed HHMM, HHMMSS or HHMMSSDD time is refused by the
      written guard, and a three-digit string is accepted and mangled. */
  lemma TimeGuardInverted(s: string)
    requires IsDigits(s) && (|s| == 4 || |s| == 6 || |s| == 8)
    ensures FormatTimeAsWritten(s).Err?
  {
  }

  /** A three-digit string passes the written guard and comes out mangled. */
  lemma ThreeDigitTimeAccepted()
    ensures FormatTimeAsWritten("123") == Ok("12:3:00")
  {
    assert IsDigits("123") by {
      assert forall i :: 0 <= i < 3 ==> IsDigit("123"[i]);
    }
    assert Substring("123", 0, 2) == "12";
    assert Substring("123", 2, 4) == "3";
    assert "12" + ":" + "3" + ":" + "00" == "12:3:00";
  }

  /** The time formatter as its error message describes it: at least four
      digits, giving hours, minutes, seconds (00 when absent) and an optional
      fraction of a second. */
  function FormatTime(s: string): (r: Result<string>)
    ensures r.Ok? <==> 4 <= |s| && IsDigits(s)
    ensures r.Ok? ==> 7 <= |r.value| && r.value[2] == ':' && r.value[5] == ':'
  {
    if |s| < 4 || !IsDigits(s) then
      Err("Invalid time string. Expected at least 4 digits (HHMM, HHMMSS, HHMMSSDD).")
    else
      var hour, min := Substring(s, 0, 2), Substring(s, 2, 4);
      var sec := if |s| > 4 then Substring(s, 4, 6) else "00";
      var time := hour + ":" + min + ":" + sec;
      Ok(if |s| > 6 then time + "." + Substring(s, 6, 8) else time)
  }

  /** Dropping a separator between two pieces strips each piece. */
  lemma StripAround(a: string, sep: char, b: string, drop: set<char>)
    requires sep in drop
    ensures Strip(a + [sep] + b, drop) == Strip(a, drop) + Strip(b, drop)
  {
    StripAppend(a + [sep], b, drop);
    StripAppend(a, [sep], drop);
  }

  /** The layout of a formatted time, piece by piece: `substring` cuts the
      seconds and the fraction short when the digits run out, and drops
      every digit after the eighth. */
  lemma FormattedTime(s: string)
    requires 4 <= |s| && IsDigits(s)
    ensures var sec := if |s| > 4 then s[4..if |s| < 6 then |s| else 6] else "00";
      var time := s[0..2] + ":" + s[2..4] + ":" + sec;
      FormatTime(s).value == if |s| > 6 then time + "." + s[6..if |s| < 8 then |s| else 8] else time
  {
  }

  /** The HH:MM:SS part keeps its digits when the colons are dropped. */
  lemma StripClock(hh: string, mm: string, sec: string)
    requires IsDigits(hh) && IsDigits(mm) && IsDigits(sec)
    ensures Strip(hh + ":" + mm + ":" + sec, {':', '.'}) == hh + mm + sec
  {
    var d := {':', '.'};
    StripKeeps(hh, d);
    StripKeeps(mm, d);
    StripKeeps(sec, d);
    StripAround(hh, ':', mm, d);
    StripAround(hh + ":" + mm, ':', sec, d);
  }

  /** The fraction keeps its digits when the point is dropped. */
  lemma StripFraction(time: string, dd: string)
    requires IsDigits(dd)
    ensures Strip(time + "." + dd, {':', '.'}) == Strip(time, {':', '.'}) + dd
  {
    StripKeeps(dd, {':', '.'});
    StripAround(time, '.', dd, {':', '.'});
  }

  /** Removing the separators from a formatted time gives back its first
      eight digits (all of them for HHMMSS and HHMMSSDD); an HHMM time comes
      back with "00" seconds. */
  lemma {:induction false} TimeRoundTrip(s: string)
    requires 4 <= |s| && IsDigits(s)
    ensures Strip(FormatTime(s).value, {':', '.'}) == if |s| == 4 then s + "00" else s[..if |s| < 8 then |s| else 8]
  {
    var hh, mm := s[0..2], s[2..4];
    var sec := if |s| > 4 then s[4..if |s| < 6 then |s| else 6] else "00";
    FormattedTime(s);
    StripClock(hh, mm, sec);
    if |s| > 6 {
      var dd := s[6..if |s| < 8 then |s| else 8];
      StripFraction(hh + ":" + mm + ":" + sec, dd);
      assert s[..if |s| < 8 then |s| else 8] == hh + mm + sec + dd;
    } else if |s| > 4 {
      assert s[..|s|] == hh + mm + sec;
    } else {
      assert s + "00" == hh + mm + sec;
    }
  }

  /** A time with more than eight digits loses the digits after the eighth. */
  lemma LongTimeTruncated()
    ensures FormatTime("123456789") == Ok("12:34:56.78")
  {
    assert IsDigits("123456789") by {
      assert forall i :: 0 <= i < 9 ==> IsDigit("123456789"[i]);
    }
    FormattedTime("123456789");
    assert "123456789"[0..2] == "12" && "123456789"[2..4] == "34";
    assert "123456789"[4..6] == "56" && "123456789"[6..8] == "78";
    assert "12" + ":" + "34" + ":" + "56" + "." + "78" == "12:34:56.78";
  }
}
