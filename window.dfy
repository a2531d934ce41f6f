/** The five-minute windows the ingestion programs poll for, and the file
    names they derive from the clock: the request-log name
    "YYYYMMDDHHmm.log", and the F5 access-log directory "Y_5m/YMD/YMDH" and
    file "caccess_f5_YMD_HHmm.log". */
module WindowClock {
  import opened CText

  /** The `struct tm` fields localtime fills in: years since 1900, months from 0. */
  datatype Tm = Tm(tmYear: int, tmMon: int, tmMday: int, tmHour: int, tmMin: int, tmSec: int)

  /** What localtime returns for an instant of a year from 0 on. */
  predicate InRange(t: Tm)
  {
    t.tmYear >= -1900 && 0 <= t.tmMon <= 11 && 1 <= t.tmMday <= 31
    && 0 <= t.tmHour <= 23 && 0 <= t.tmMin <= 59 && 0 <= t.tmSec <= 60
  }

  /** The calendar year and month the programs print: tm_year + 1900 and tm_mon + 1. */
  function Year(t: Tm): int { t.tmYear + 1900 }
  function Month(t: Tm): int { t.tmMon + 1 }

  /** Fields printed one after another with %02d. */
  function Pad2All(fs: seq<int>): string
  {
    if fs == [] then "" else Pad2(fs[0]) + Pad2All(fs[1..])
  }

  /** "%d%02d…%02d": a year followed by two-digit fields. */
  function Stamp(year: int, fs: seq<int>): string { Dec(year) + Pad2All(fs) }

  /** The gate of both name builders: the minute is a multiple of five. C's `%`
      truncates toward zero, but a zero remainder means the same under either rounding. */
  predicate OnBoundary(minute: int) { minute % 5 == 0 }

  /** The minute a name stands for: the year and then month, day, hour and minute. */
  function MinuteOf(t: Tm): (int, seq<int>) { (Year(t), [Month(t), t.tmMday, t.tmHour, t.tmMin]) }

  /** The hour an F5 directory stands for: the year and then month, day and hour. */
  function HourOf(t: Tm): (int, seq<int>) { (Year(t), [Month(t), t.tmMday, t.tmHour]) }

  // ---------------------------------------------------------------------------
  // Building the names

  /** The request log of the minute `t`. */
  function RequestLogName(t: Tm): string
  {
    Stamp(Year(t), [Month(t), t.tmMday, t.tmHour, t.tmMin]) + ".log"
  }

  /** GetRequestLogNewName: the name of the current minute when it is on a
      five-minute boundary (the C function then returns 0); otherwise nothing
      is written and it returns -1. */
  function GetRequestLogNewName(now: int, localtime: int -> Tm): (r: Option<string>)
    ensures r.Some? <==> OnBoundary(localtime(now).tmMin)
    ensures r.Some? ==> r.value == RequestLogName(localtime(now))
  {
    var t := localtime(now);
    if OnBoundary(t.tmMin) then Some(RequestLogName(t)) else None
  }

  /** How far back the F5 directory's clock reading lies, in seconds. */
  const JANUARY_SKEW: int := 10
  const MARCH_SKEW: int := 20

  /** The F5 directory of the hour `t` falls in. */
  function F5Dir(t: Tm): string
  {
    Dec(Year(t)) + "_5m" + "/" + Stamp(Year(t), [Month(t), t.tmMday]) + "/"
      + Stamp(Year(t), [Month(t), t.tmMday, t.tmHour])
  }

  /** The F5 access-log file of the minute `t`. */
  function F5File(t: Tm): string
  {
    "caccess_f5_" + Stamp(Year(t), [Month(t), t.tmMday]) + "_" + Pad2All([t.tmHour, t.tmMin]) + ".log"
  }

  /** GetF5LogLocationNewName: gated on the current minute like the request-log
      name; the directory comes from the clock `skew` seconds earlier, the file
      name from the current clock. */
  function GetF5LogLocationNewName(now: int, skew: int, localtime: int -> Tm): (r: Option<(string, string)>)
    ensures r.Some? <==> OnBoundary(localtime(now).tmMin)
    ensures r.Some? ==> r.value == (F5Dir(localtime(now - skew)), F5File(localtime(now)))
  {
    var t := localtime(now);
    if OnBoundary(t.tmMin) then Some((F5Dir(localtime(now - skew)), F5File(t))) else None
  }

  // ---------------------------------------------------------------------------
  // Reading the names back

  /** Every field lies in 0..99, so %02d prints it as exactly two digits. */
  predicate TwoDigitFields(fs: seq<int>) { forall i :: 0 <= i < |fs| ==> 0 <= fs[i] < 100 }

  /** Reads consecutive two-digit fields. */
  function ReadPairs(s: string): (fs: seq<int>)
    requires AllDigits(s) && |s| % 2 == 0
    ensures |fs| == |s| / 2
  {
    if s == [] then [] else [ValueOf(s[..2])] + ReadPairs(s[2..])
  }

  /** Reads "%d" followed by `n` "%02d" fields: the year is every digit before the last `n` pairs. */
  function ReadStamp(s: string, n: nat): (r: Option<(int, seq<int>)>)
    ensures r.Some? ==> r.value.0 >= 0 && |r.value.1| == n
  {
    if |s| < 2 * n + 1 || !AllDigits(s) then None
    else Some((ValueOf(s[..|s| - 2 * n]), ReadPairs(s[|s| - 2 * n..])))
  }

  /** The minute a request-log name stands for. */
  function ParseRequestLogName(s: string): (r: Option<(int, seq<int>)>)
    ensures r.Some? ==> |r.value.1| == 4
  {
    if |s| >= 4 && s[|s| - 4..] == ".log" then ReadStamp(s[..|s| - 4], 4) else None
  }

  /** The minute an F5 file name stands for. */
  function ParseF5File(s: string): (r: Option<(int, seq<int>)>)
    ensures r.Some? ==> |r.value.1| == 4
  {
    if |s| < 20 || s[..11] != "caccess_f5_" || s[|s| - 4..] != ".log" then None
    else ParseF5Stamps(s[11..|s| - 4])
  }

  /** The day stamp and the hour-minute pair between "caccess_f5_" and ".log". */
  function ParseF5Stamps(m: string): (r: Option<(int, seq<int>)>)
    requires |m| >= 5
    ensures r.Some? ==> |r.value.1| == 4
  {
    if m[|m| - 5] != '_' || !AllDigits(m[|m| - 4..]) then None
    else match ReadStamp(m[..|m| - 5], 2)
      case None => None
      case Some((y, md)) => Some((y, md + ReadPairs(m[|m| - 4..])))
  }

  /** The hour an F5 directory stands for, read from its last component. */
  function ParseF5Dir(s: string): (r: Option<(int, seq<int>)>)
    ensures r.Some? ==> |r.value.1| == 3
  {
    var a := CutAt(s, {'/'});
    if |a| == |s| then None
    else
      var rest := s[|a| + 1..];
      var b := CutAt(rest, {'/'});
      if |b| == |rest| then None else ReadStamp(rest[|b| + 1..], 3)
  }

  // ---------------------------------------------------------------------------
  // The names identify their windows

  lemma {:induction false} ReadPairsPad2All(fs: seq<int>)
    requires TwoDigitFields(fs)
    ensures |Pad2All(fs)| == 2 * |fs| && AllDigits(Pad2All(fs))
    ensures ReadPairs(Pad2All(fs)) == fs
  {
    if fs != [] {
      Pad2Digits(fs[0]);
      ReadPairsPad2All(fs[1..]);
      var s := Pad2All(fs);
      assert s[..2] == Pad2(fs[0]);
      assert s[2..] == Pad2All(fs[1..]);
    }
  }

  /** A stamp reads back as the year and fields it was printed from. */
  lemma ReadStampRoundTrip(year: int, fs: seq<int>)
    requires year >= 0 && TwoDigitFields(fs)
    ensures AllDigits(Stamp(year, fs)) && |Stamp(year, fs)| >= 2 * |fs| + 1
    ensures ReadStamp(Stamp(year, fs), |fs|) == Some((year, fs))
  {
    ReadPairsPad2All(fs);
    ValueOfDecNat(year);
    var s := Stamp(year, fs);
    assert s[..|s| - 2 * |fs|] == DecNat(year);
    assert s[|s| - 2 * |fs|..] == Pad2All(fs);
  }

  /** The request-log name reads back as its minute. */
  lemma RequestLogNameRoundTrip(t: Tm)
    requires InRange(t)
    ensures ParseRequestLogName(RequestLogName(t)) == Some(MinuteOf(t))
  {
    var fs := [Month(t), t.tmMday, t.tmHour, t.tmMin];
    ReadStampRoundTrip(Year(t), fs);
    var s := RequestLogName(t);
    assert s[..|s| - 4] == Stamp(Year(t), fs);
    assert s[|s| - 4..] == ".log";
  }

  /** Two minutes share a request-log name exactly when they are the same
      minute, so the name tells whether a window was already processed. */
  lemma RequestLogNameIdentifiesMinute(a: Tm, b: Tm)
    requires InRange(a) && InRange(b)
    ensures RequestLogName(a) == RequestLogName(b) <==> MinuteOf(a) == MinuteOf(b)
  {
    RequestLogNameRoundTrip(a);
    RequestLogNameRoundTrip(b);
  }

  /** The F5 file name is read by stripping its fixed prefix and suffix. */
  lemma ParseF5FileOuter(m: string)
    requires |m| >= 5
    ensures ParseF5File("caccess_f5_" + m + ".log") == ParseF5Stamps(m)
  {
    var s := "caccess_f5_" + m + ".log";
    SliceConcat3("caccess_f5_", m, ".log");
    assert s[11..|s| - 4] == m;
  }

  /** The middle of an F5 file name is read as a day stamp, '_' and four digits. */
  lemma ParseF5StampsParts(x: string, h: string, y: int, md: seq<int>)
    requires ReadStamp(x, 2) == Some((y, md)) && AllDigits(h) && |h| == 4
    ensures ParseF5Stamps(x + "_" + h) == Some((y, md + ReadPairs(h)))
  {
    var m := x + "_" + h;
    SliceConcat3(x, "_", h);
    assert m[|m| - 5] == '_' && m[..|m| - 5] == x && m[|m| - 4..] == h;
  }

  /** An F5 file name is read through its two stamps. */
  lemma ParseF5FileParts(x: string, h: string, y: int, md: seq<int>)
    requires ReadStamp(x, 2) == Some((y, md)) && AllDigits(h) && |h| == 4
    ensures ParseF5File("caccess_f5_" + x + "_" + h + ".log") == Some((y, md + ReadPairs(h)))
  {
    assert "caccess_f5_" + x + "_" + h + ".log" == "caccess_f5_" + (x + "_" + h) + ".log";
    ParseF5FileOuter(x + "_" + h);
    ParseF5StampsParts(x, h, y, md);
  }

  /** The F5 file name reads back as its minute, the same one the request-log
      name of that clock reading carries. */
  lemma F5FileRoundTrip(t: Tm)
    requires InRange(t)
    ensures ParseF5File(F5File(t)) == Some(MinuteOf(t))
  {
    var md := [Month(t), t.tmMday];
    var hm := [t.tmHour, t.tmMin];
    ReadStampRoundTrip(Year(t), md);
    ReadPairsPad2All(hm);
    ParseF5FileParts(Stamp(Year(t), md), Pad2All(hm), Year(t), md);
    assert md + hm == MinuteOf(t).1;
  }

  /** An F5 directory is read through its last component. */
  lemma ParseF5DirParts(a: string, b: string, c: string)
    requires '/' !in a && '/' !in b
    ensures ParseF5Dir(a + "/" + b + "/" + c) == ReadStamp(c, 3)
  {
    var s := a + "/" + b + "/" + c;
    assert s == a + "/" + (b + "/" + c);
    CutAtUnique(s, {'/'}, a);
    assert s[|a| + 1..] == b + "/" + c;
    CutAtUnique(b + "/" + c, {'/'}, b);
    assert (b + "/" + c)[|b| + 1..] == c;
  }

  /** The F5 directory reads back as the hour it was built from. */
  lemma F5DirRoundTrip(t: Tm)
    requires InRange(t)
    ensures ParseF5Dir(F5Dir(t)) == Some(HourOf(t))
  {
    var y := Year(t);
    var md := [Month(t), t.tmMday];
    var mdh := [Month(t), t.tmMday, t.tmHour];
    ReadStampRoundTrip(y, md);
    ReadStampRoundTrip(y, mdh);
    ReadStampRoundTrip(y, []);
    assert Stamp(y, []) == Dec(y);
    var a := Dec(y) + "_5m";
    assert '/' !in a;
    var b := Stamp(y, md);
    var c := Stamp(y, mdh);
    assert F5Dir(t) == a + "/" + b + "/" + c;
    ParseF5DirParts(a, b, c);
  }

  /** Two clock readings share an F5 directory exactly when they fall in the same hour. */
  lemma F5DirIdentifiesHour(a: Tm, b: Tm)
    requires InRange(a) && InRange(b)
    ensures F5Dir(a) == F5Dir(b) <==> HourOf(a) == HourOf(b)
  {
    F5DirRoundTrip(a);
    F5DirRoundTrip(b);
  }

  /** The year both examples print. */
  lemma Dec2014()
    ensures Dec(2014) == "2014"
  {
    assert DecNat(2) == "2";
    assert DecNat(20) == DecNat(2) + [DigitChar(0)];
    assert DecNat(201) == DecNat(20) + [DigitChar(1)];
    assert DecNat(2014) == DecNat(201) + [DigitChar(4)];
  }

  lemma Pad2AllJanuary6()
    ensures Pad2All([1, 6, 9, 20]) == "01060920"
  {
    assert Pad2(20) == "20" by { assert DecNat(20) == DecNat(2) + [DigitChar(0)]; }
  }

  /** The pieces of the request-log name at 09:20 on 6 January 2014. */
  lemma RequestLogNamePieces()
    ensures RequestLogName(Tm(114, 0, 6, 9, 20, 0)) == "2014" + "01060920" + ".log"
  {
    var t := Tm(114, 0, 6, 9, 20, 0);
    assert Year(t) == 2014 && Month(t) == 1;
    Dec2014();
    Pad2AllJanuary6();
  }

  lemma RequestLogNameLiteral()
    ensures "2014" + "01060920" + ".log" == "201401060920.log"
  {
  }

  /** On a boundary the request-log name is exactly the current minute's name:
      "201401060920.log" for 09:20 on 6 January 2014; at 09:21 there is none. */
  lemma RequestLogNameExample()
    ensures GetRequestLogNewName(0, _ => Tm(114, 0, 6, 9, 20, 0)) == Some("201401060920.log")
    ensures GetRequestLogNewName(0, _ => Tm(114, 0, 6, 9, 21, 0)) == None
  {
    RequestLogNamePieces();
    RequestLogNameLiteral();
  }

  /** The day stamp both F5 examples print. */
  lemma StampJanuary9()
    ensures Stamp(2014, [1, 9]) == "20140109"
  {
    Dec2014();
    assert Pad2All([1, 9]) == "0109";
  }

  lemma StampJanuary9At16()
    ensures Stamp(2014, [1, 9, 16]) == "2014010916"
  {
    Dec2014();
    assert Pad2(16) == "16" by { assert DecNat(16) == DecNat(1) + [DigitChar(6)]; }
    assert Pad2All([1, 9, 16]) == "010916";
  }

  lemma F5DirPieces()
    ensures F5Dir(Tm(114, 0, 9, 16, 59, 55)) == "2014" + "_5m" + "/" + "20140109" + "/" + "2014010916"
  {
    var t := Tm(114, 0, 9, 16, 59, 55);
    assert Year(t) == 2014 && Month(t) == 1;
    Dec2014();
    StampJanuary9();
    StampJanuary9At16();
  }

  lemma F5DirLiteral()
    ensures "2014" + "_5m" + "/" + "20140109" + "/" + "2014010916" == "2014_5m/20140109/2014010916"
  {
  }

  /** 16:59 on 9 January 2014 lies in the hour directory 2014010916 of that day. */
  lemma F5DirExample()
    ensures F5Dir(Tm(114, 0, 9, 16, 59, 55)) == "2014_5m/20140109/2014010916"
  {
    F5DirPieces();
    F5DirLiteral();
  }

  lemma F5FilePieces()
    ensures F5File(Tm(114, 0, 9, 17, 0, 5)) == "caccess_f5_" + "20140109" + "_" + "1700" + ".log"
  {
    var t := Tm(114, 0, 9, 17, 0, 5);
    assert Year(t) == 2014 && Month(t) == 1;
    StampJanuary9();
    assert Pad2(17) == "17" by { assert DecNat(17) == DecNat(1) + [DigitChar(7)]; }
    assert Pad2All([17, 0]) == "1700";
  }

  lemma F5FileLiteral()
    ensures "caccess_f5_" + "20140109" + "_" + "1700" + ".log" == "caccess_f5_20140109_1700.log"
  {
  }

  /** The F5 file of the window starting 17:00 on 9 January 2014. */
  lemma F5FileExample()
    ensures F5File(Tm(114, 0, 9, 17, 0, 5)) == "caccess_f5_20140109_1700.log"
  {
    F5FilePieces();
    F5FileLiteral();
  }

  /** Five seconds after 17:00 on 9 January 2014 the January programs look in
      the directory of the previous hour, ten seconds earlier, for the file of 17:00. */
  lemma F5SkewExample()
    ensures GetF5LogLocationNewName(1000, JANUARY_SKEW,
              ts => if ts == 1000 then Tm(114, 0, 9, 17, 0, 5) else Tm(114, 0, 9, 16, 59, 55))
            == Some(("2014_5m/20140109/2014010916", "caccess_f5_20140109_1700.log"))
  {
    F5DirExample();
    F5FileExample();
  }
}
