/**
 * The two static formatters of the WSJT-X channel: `formatTime` (milliseconds since
 * midnight UTC as HHMMSS) and `formatDecode` (a decode as one line of the Band Activity
 * window).
 */
module WsjtxFormat {
  import opened Wrappers
  import opened JsText
  import opened WsjtxMessages

  /** `n.toString().padStart(2, '0')`. */
  function Pad2(n: int): (r: string)
    ensures |r| >= 2
  {
    PadStart(IntToString(n), 2, '0')
  }

  /**
   * The arithmetic of `formatTime`: whole seconds by floor division, then hours and the
   * minutes and seconds left over. Dafny's `/` is Math.floor here because every divisor is
   * positive. The three fields are the unique split of the whole seconds with minutes and
   * seconds below 60.
   */
  function ClockFields(time: int): (f: (int, int, int))
    ensures var (hours, minutes, seconds) := f;
      && 0 <= minutes < 60 && 0 <= seconds < 60
      && hours * 3600 + minutes * 60 + seconds == time / 1000
  {
    var secondsSinceMidnight := time / 1000;
    var hours := secondsSinceMidnight / 3600;
    var secondsSinceHour := secondsSinceMidnight - hours * 3600;
    var minutes := secondsSinceHour / 60;
    var seconds := secondsSinceHour - minutes * 60;
    (hours, minutes, seconds)
  }

  /** Within a day the hours are below 24. */
  lemma {:induction false} ClockFieldsWithinDay(time: int)
    requires 0 <= time < 86400000
    ensures 0 <= ClockFields(time).0 < 24
  {
  }

  /** `formatTime`: hours, minutes and seconds, each written with at least two digits. */
  function FormatTime(time: int): (r: string)
    ensures |r| >= 6
  {
    var (hours, minutes, seconds) := ClockFields(time);
    Pad2(hours) + (Pad2(minutes) + Pad2(seconds))
  }

  /** Two-digit padding of a number below 100 is exactly two digits that read back as it. */
  lemma {:induction false} Pad2Digits(n: int)
    requires 0 <= n < 100
    ensures |Pad2(n)| == 2 && AllDigits(Pad2(n)) && DigitsValue(Pad2(n)) == n
  {
    NatToStringShort(n, 2);
    if n < 10 {
      var p := ['0', DigitChar(n)];
      assert Pad2(n) == p;
      assert p[..1] == ['0'];
      assert DigitsValue(['0']) == 0 by {
        assert ['0'][..0] == [];
      }
    } else {
      assert Pad2(n) == NatToString(n);
      NatToStringValue(n);
    }
  }

  /** Where the three fields of HHMMSS sit. */
  lemma {:induction false} TimeLayout(hh: string, mm: string, ss: string)
    requires |hh| == 2 && |mm| == 2 && |ss| == 2
    requires AllDigits(hh) && AllDigits(mm) && AllDigits(ss)
    ensures var r := hh + (mm + ss);
      |r| == 6 && AllDigits(r) && r[..2] == hh && r[2..4] == mm && r[4..] == ss
  {
  }

  /**
   * Within a day the time is six digits HHMMSS: hours below 24, minutes and seconds below
   * 60, and together they count the whole seconds since midnight.
   */
  lemma {:induction false} FormatTimeWithinDay(time: int)
    requires 0 <= time < 86400000
    ensures var r := FormatTime(time);
      && |r| == 6 && AllDigits(r)
      && var h, m, s := DigitsValue(r[..2]), DigitsValue(r[2..4]), DigitsValue(r[4..]);
      && h < 24 && m < 60 && s < 60
      && h * 3600 + m * 60 + s == time / 1000
  {
    var (hours, minutes, seconds) := ClockFields(time);
    ClockFieldsWithinDay(time);
    Pad2Digits(hours);
    Pad2Digits(minutes);
    Pad2Digits(seconds);
    TimeLayout(Pad2(hours), Pad2(minutes), Pad2(seconds));
  }

  lemma {:induction false} FormatTimeSixWide(time: int)
    requires 0 <= time < 86400000
    ensures |FormatTime(time)| == 6
  {
    FormatTimeWithinDay(time);
  }

  /** 01:02:03 UTC. */
  lemma FormatTimeExample()
    ensures FormatTime(3723000) == "010203"
  {
  }

  /** A separator and `s` right-aligned in `width` characters: one column of a decode line. */
  function Column(s: string, width: int): string {
    " " + PadStart(s, width, ' ')
  }

  /**
   * `formatDecode`: time, SNR right-aligned in 3, delta time with one decimal right-aligned
   * in 4, delta frequency right-aligned in 4, the `~` marker, then the message verbatim.
   */
  function FormatDecode(msg: WsjtxDecode): string {
    FormatTime(msg.time) + (Column(IntToString(msg.snr), 3) + (Column(ToFixed1(msg.deltaTime), 4) +
      (Column(IntToString(msg.deltaFrequency), 4) + (" ~  " + msg.message))))
  }

  /** Whatever the numbers, a decode line ends with the marker and the message verbatim. */
  lemma {:induction false} FormatDecodeEndsWithMessage(msg: WsjtxDecode)
    ensures var r := FormatDecode(msg);
      |r| >= |msg.message| + 4 && r[|r| - |msg.message| - 4..] == " ~  " + msg.message
  {
  }

  /** A column holding an integer reads back with `parseInt`, at any width. */
  lemma {:induction false} IntColumnReads(i: int, width: int)
    ensures ParseInt(Column(IntToString(i), width)) == Some(i)
  {
    var s := IntToString(i);
    var pad := PadStartPrefix(s, width, ' ');
    SpacesAreWhiteSpace(pad);
    ConcatAssociates(" ", pad, s);
    ParseIntOfIntToString(" " + pad, i);
  }

  /** A column holding a `toFixed(1)` text reads back with `parseInt` as its integer part. */
  lemma {:induction false} TenthsColumnReads(tenths: int, width: int)
    ensures var whole: int := Magnitude(tenths) / 10;
      ParseInt(Column(ToFixed1(tenths), width)) == Some(if tenths < 0 then -whole else whole)
  {
    var s := ToFixed1(tenths);
    var pad := PadStartPrefix(s, width, ' ');
    SpacesAreWhiteSpace(pad);
    ConcatAssociates(" ", pad, s);
    ToFixed1Reads(" " + pad, tenths);
  }

  /** An integer with at most `width` characters fills a column of exactly `width + 1`. */
  lemma {:induction false} IntColumnWidth(i: int, width: nat)
    requires 1 <= width
    requires i < 0 ==> -i < Pow10(width - 1)
    requires i < Pow10(width)
    ensures |Column(IntToString(i), width)| == width + 1
  {
    if i < 0 {
      NatToStringShort(-i, width - 1);
    } else {
      NatToStringShort(i, width);
    }
  }

  /** A column is the separator, spaces, then the text itself. */
  lemma {:induction false} ColumnPrefix(s: string, width: int) returns (pad: string)
    ensures Column(s, width) == (" " + pad) + s
    ensures forall i :: 0 <= i < |pad| ==> pad[i] == ' '
  {
    pad := PadStartPrefix(s, width, ' ');
    ConcatAssociates(" ", pad, s);
  }

  /** A delta time that fits its column of 4 shows its point, its tenths digit and its sign
      at fixed places. */
  lemma {:induction false} TenthsColumnShape(tenths: int)
    requires -99 <= tenths <= 999
    ensures var c := Column(ToFixed1(tenths), 4);
      && |c| == 5 && c[3] == '.' && IsDigit(c[4]) && DigitValue(c[4]) == Magnitude(tenths) % 10
      && ('-' in c <==> tenths < 0)
  {
    var s := ToFixed1(tenths);
    NatToStringShort(Magnitude(tenths) / 10, if tenths < 0 then 1 else 2);
    var pad := ColumnPrefix(s, 4);
    var c := (" " + pad) + s;
    assert |c| == 5;
    assert c[3] == s[|s| - 2] && c[4] == s[|s| - 1];
    if tenths < 0 {
      assert c[|c| - |s|] == '-';
    } else {
      assert forall i :: 0 <= i < |c| ==> c[i] != '-' by {
        forall i | 0 <= i < |c| ensures c[i] != '-' {
          if i >= |c| - |s| {
            assert c[i] == s[i - (|c| - |s|)];
          }
        }
      }
    }
  }

  /** Where the five fields of a decode line sit once each has its column width. */
  lemma {:induction false} DecodeLayout(t: string, c1: string, c2: string, c3: string, message: string)
    requires |t| == 6 && |c1| == 4 && |c2| == 5 && |c3| == 5
    ensures var r := t + (c1 + (c2 + (c3 + (" ~  " + message))));
      && |r| == 24 + |message|
      && r[..6] == t && r[6..10] == c1 && r[10..15] == c2 && r[15..20] == c3
      && r[20..24] == " ~  " && r[24..] == message
  {
  }

  /**
   * When every number fits its column the line has fixed columns: the time in 0..6, the
   * SNR in 6..10, the delta time in 10..15 (its point at 13, its tenths digit at 14, a
   * minus sign iff it is negative), the delta frequency in 15..20, the marker in 20..24 and
   * the message from 24 on. Each numeric column reads back with `parseInt`.
   */
  lemma {:induction false} FormatDecodeColumns(msg: WsjtxDecode)
    requires 0 <= msg.time < 86400000
    requires -99 <= msg.snr <= 999
    requires -99 <= msg.deltaTime <= 999
    requires -999 <= msg.deltaFrequency <= 9999
    ensures var r := FormatDecode(msg);
      var whole: int := Magnitude(msg.deltaTime) / 10;
      && |r| == 24 + |msg.message|
      && r[..6] == FormatTime(msg.time)
      && ParseInt(r[6..10]) == Some(msg.snr)
      && ParseInt(r[10..15]) == Some(if msg.deltaTime < 0 then -whole else whole)
      && r[13] == '.' && IsDigit(r[14]) && DigitValue(r[14]) == Magnitude(msg.deltaTime) % 10
      && ('-' in r[10..15] <==> msg.deltaTime < 0)
      && ParseInt(r[15..20]) == Some(msg.deltaFrequency)
      && r[20..24] == " ~  "
      && r[24..] == msg.message
  {
    FormatTimeSixWide(msg.time);
    IntColumnWidth(msg.snr, 3);
    IntColumnWidth(msg.deltaFrequency, 4);
    TenthsColumnShape(msg.deltaTime);
    var c1 := Column(IntToString(msg.snr), 3);
    var c2 := Column(ToFixed1(msg.deltaTime), 4);
    var c3 := Column(IntToString(msg.deltaFrequency), 4);
    DecodeLayout(FormatTime(msg.time), c1, c2, c3, msg.message);
    IntColumnReads(msg.snr, 3);
    TenthsColumnReads(msg.deltaTime, 4);
    IntColumnReads(msg.deltaFrequency, 4);
  }

  /** The three numeric columns of the example below. */
  lemma SnrColumnExample()
    ensures Column(IntToString(-5), 3) == "  -5"
  {
  }

  lemma DeltaTimeColumnExample()
    ensures Column(ToFixed1(3), 4) == "  0.3"
  {
  }

  lemma FrequencyColumnExample()
    ensures Column(IntToString(1234), 4) == " 1234"
  {
  }

  /** The decode line WSJT-X shows for an SNR of -5 dB, 0.3 s and 1234 Hz at 01:02:03. */
  lemma FormatDecodeExample(id: string, mode: string, lowConfidence: bool, isNew: bool, offAir: bool)
    ensures FormatDecode(WsjtxDecode(1234, 3, id, lowConfidence, "CQ KEL", mode, isNew, offAir, -5, 3723000))
      == "010203  -5  0.3 1234 ~  CQ KEL"
  {
    var d := WsjtxDecode(1234, 3, id, lowConfidence, "CQ KEL", mode, isNew, offAir, -5, 3723000);
    assert FormatDecode(d) == FormatTime(3723000) + (Column(IntToString(-5), 3) +
      (Column(ToFixed1(3), 4) + (Column(IntToString(1234), 4) + (" ~  " + "CQ KEL"))));
    FormatTimeExample();
    SnrColumnExample();
    DeltaTimeColumnExample();
    FrequencyColumnExample();
    ExampleLineJoins();
  }

  lemma ExampleLineJoins()
    ensures "010203" + ("  -5" + ("  0.3" + (" 1234" + (" ~  " + "CQ KEL"))))
      == "010203  -5  0.3 1234 ~  CQ KEL"
  {
  }
}
