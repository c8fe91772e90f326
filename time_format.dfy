// The duration format of `Progress.timetostr`: whole seconds rendered as
// MM:SS, HH:MM:SS or DD:HH:MM:SS, stated as a reference definition, together
// with a reader for that format and the properties that tie the two together.

module TimeFormat {
  import opened Decimal

  datatype Option<T> = None | Some(value: T)

  const SECONDS_PER_DAY := 86400
  const SECONDS_PER_HOUR := 3600
  const SECONDS_PER_MINUTE := 60

  // The four units of a duration; Python 2's `/` on integers is floor
  // division, which on non-negative operands is Dafny's `/`.
  function Days(d: nat): nat { d / SECONDS_PER_DAY }
  function Hours(d: nat): nat { (d / SECONDS_PER_HOUR) % 24 }
  function Minutes(d: nat): nat { (d / SECONDS_PER_MINUTE) % 60 }
  function Seconds(d: nat): nat { d % 60 }

  /** One printed unit: `str(n).zfill(2)`. */
  function Field(n: nat): string {
    ZFill(Str(n), 2)
  }

  /**
   * Reference definition of the format: minutes and seconds always; hours
   * in front of them when the hours or the days are non-zero; days in front
   * of those when the days are non-zero.
   */
  function FormatDuration(d: nat): string {
    var tail := Field(Minutes(d)) + ":" + Field(Seconds(d));
    if Days(d) > 0 then Field(Days(d)) + ":" + Field(Hours(d)) + ":" + tail
    else if Hours(d) > 0 then Field(Hours(d)) + ":" + tail
    else tail
  }

  // ---------------------------------------------------------------------
  // Colon-separated fields

  /** The pieces of `s` between colons, as Python's `s.split(":")`. */
  function Split(s: string): (fs: seq<string>)
    ensures |fs| >= 1
  {
    if s == [] then [""]
    else if s[0] == ':' then [""] + Split(s[1..])
    else var rest := Split(s[1..]); [[s[0]] + rest[0]] + rest[1..]
  }

  /** The fields joined by colons, as Python's `":".join(fs)`. */
  function Join(fs: seq<string>): string
    requires |fs| >= 1
  {
    if |fs| == 1 then fs[0] else fs[0] + ":" + Join(fs[1..])
  }

  predicate ColonFree(fs: seq<string>) {
    forall i :: 0 <= i < |fs| ==> ':' !in fs[i]
  }

  lemma {:induction false} SplitColonFree(a: string)
    requires ':' !in a
    ensures Split(a) == [a]
  {
    if a != [] {
      assert ':' !in a[1..] by {
        forall i | 0 <= i < |a[1..]| ensures a[1..][i] != ':' { assert a[1..][i] == a[i + 1]; }
      }
      SplitColonFree(a[1..]);
      assert [a[0]] + a[1..] == a;
    }
  }

  lemma {:induction false} SplitAfterField(a: string, b: string)
    requires ':' !in a
    ensures Split(a + ":" + b) == [a] + Split(b)
  {
    var s := a + ":" + b;
    if a == [] {
      assert s[1..] == b;
    } else {
      assert s[1..] == a[1..] + ":" + b;
      assert ':' !in a[1..] by {
        forall i | 0 <= i < |a[1..]| ensures a[1..][i] != ':' { assert a[1..][i] == a[i + 1]; }
      }
      SplitAfterField(a[1..], b);
      assert [a[0]] + a[1..] == a;
    }
  }

  /** Splitting fields that hold no colon undoes joining them. */
  lemma {:induction false} SplitJoin(fs: seq<string>)
    requires |fs| >= 1 && ColonFree(fs)
    ensures Split(Join(fs)) == fs
    decreases |fs|
  {
    if |fs| == 1 {
      SplitColonFree(fs[0]);
    } else {
      assert ':' !in fs[0];
      SplitAfterField(fs[0], Join(fs[1..]));
      SplitJoin(fs[1..]);
      assert [fs[0]] + fs[1..] == fs;
    }
  }

  // ---------------------------------------------------------------------
  // Reading a formatted duration back

  predicate IsNumeral(f: string) {
    |f| >= 1 && IsDigits(f)
  }

  predicate AllNumerals(fs: seq<string>) {
    forall i :: 0 <= i < |fs| ==> IsNumeral(fs[i])
  }

  /** The total of 2 to 4 fields read as [[days:]hours:]minutes:seconds. */
  function Total(fs: seq<string>): nat
    requires 2 <= |fs| <= 4 && AllNumerals(fs)
  {
    var k := |fs|;
    var days := if k == 4 then Value(fs[0]) else 0;
    var hours := if k >= 3 then Value(fs[k - 3]) else 0;
    days * SECONDS_PER_DAY + hours * SECONDS_PER_HOUR + Value(fs[k - 2]) * SECONDS_PER_MINUTE + Value(fs[k - 1])
  }

  /** Reads a duration written as MM:SS, HH:MM:SS or DD:HH:MM:SS. */
  function ParseDuration(s: string): Option<nat> {
    var fs := Split(s);
    if 2 <= |fs| <= 4 && AllNumerals(fs) then Some(Total(fs)) else None
  }

  // ---------------------------------------------------------------------
  // Properties of the format

  /** The printed fields, most significant first. */
  function Fields(d: nat): seq<string> {
    var tail := [Field(Minutes(d)), Field(Seconds(d))];
    if Days(d) > 0 then [Field(Days(d)), Field(Hours(d))] + tail
    else if Hours(d) > 0 then [Field(Hours(d))] + tail
    else tail
  }

  /** A duration is its days, hours, minutes and seconds put back together. */
  lemma Decompose(d: nat)
    ensures d == Days(d) * SECONDS_PER_DAY + Hours(d) * SECONDS_PER_HOUR + Minutes(d) * SECONDS_PER_MINUTE + Seconds(d)
    ensures Days(d) == 0 ==> Hours(d) == d / SECONDS_PER_HOUR
    ensures Days(d) == 0 && Hours(d) == 0 ==> Minutes(d) == d / SECONDS_PER_MINUTE
  {
    var a := d / 60;
    var b := a / 60;
    assert d == 60 * a + d % 60;
    assert a == 60 * b + a % 60;
    assert b == d / 3600;
    assert b == 24 * (b / 24) + b % 24;
    assert b / 24 == d / 86400;
  }

  /** Each printed unit is a numeral of at least two digits holding no colon. */
  lemma FieldIsNumeral(n: nat)
    ensures IsNumeral(Field(n)) && ':' !in Field(n)
    ensures |Field(n)| == if n < 100 then 2 else |Str(n)|
    ensures n >= 100 ==> |Field(n)| >= 3
    ensures Value(Field(n)) == n
  {
    PaddedNumeral(n, 2);
    StrShape(n);
  }

  lemma {:induction false} JoinTwo(a: string, b: string)
    ensures Join([a, b]) == a + ":" + b
  {
    assert [a, b][1..] == [b];
  }

  lemma {:induction false} JoinMore(a: string, fs: seq<string>)
    requires |fs| >= 1
    ensures Join([a] + fs) == a + ":" + Join(fs)
  {
    assert ([a] + fs)[1..] == fs;
  }

  /** The formatted duration is the printed fields joined by colons. */
  lemma {:induction false} FormatIsJoin(d: nat)
    ensures FormatDuration(d) == Join(Fields(d))
  {
    var days, hours, minutes, seconds := Field(Days(d)), Field(Hours(d)), Field(Minutes(d)), Field(Seconds(d));
    var tail := [minutes, seconds];
    JoinTwo(minutes, seconds);
    if Days(d) > 0 {
      JoinMore(hours, tail);
      JoinMore(days, [hours] + tail);
      assert [days, hours] + tail == [days] + ([hours] + tail);
    } else if Hours(d) > 0 {
      JoinMore(hours, tail);
    }
  }

  /** Splitting a formatted duration at its colons gives the printed fields. */
  lemma {:induction false} SplitFormat(d: nat)
    ensures Split(FormatDuration(d)) == Fields(d)
  {
    FormatIsJoin(d);
    FieldsColonFree(d);
    SplitJoin(Fields(d));
  }

  lemma {:induction false} FieldsColonFree(d: nat)
    ensures ColonFree(Fields(d))
  {
    var days, hours, minutes, seconds := Field(Days(d)), Field(Hours(d)), Field(Minutes(d)), Field(Seconds(d));
    FieldIsNumeral(Days(d));
    FieldIsNumeral(Hours(d));
    FieldIsNumeral(Minutes(d));
    FieldIsNumeral(Seconds(d));
    ColonFreeFields(days, hours, minutes, seconds);
  }

  lemma ColonFreeFields(days: string, hours: string, minutes: string, seconds: string)
    requires ':' !in days && ':' !in hours && ':' !in minutes && ':' !in seconds
    ensures ColonFree([days, hours, minutes, seconds])
    ensures ColonFree([hours, minutes, seconds])
    ensures ColonFree([minutes, seconds])
  {
  }

  /**
   * The shape of a formatted duration: four fields when there are days,
   * three when there are hours but no days, two otherwise; every field is a
   * numeral of at least two digits; the last two are the minutes and the
   * seconds (each below 60), a third from the end the hours (below 24), a
   * fourth from the end the days, which take three or more digits from 100
   * days on. Minutes, seconds, hours, and days below 100, are exactly two
   * digits.
   */
  lemma {:induction false} FormatShape(d: nat)
    ensures ShapeOk(d, Split(FormatDuration(d)))
  {
    SplitFormat(d);
    FieldsShape(d);
  }

  predicate ShapeOk(d: nat, fs: seq<string>) {
    && |fs| == (if Days(d) > 0 then 4 else if Hours(d) > 0 then 3 else 2)
    && AllNumerals(fs)
    && (forall i :: 0 <= i < |fs| ==> |fs[i]| >= 2)
    && Value(fs[|fs| - 1]) == Seconds(d) < 60
    && Value(fs[|fs| - 2]) == Minutes(d) < 60
    && (|fs| >= 3 ==> Value(fs[|fs| - 3]) == Hours(d) < 24)
    && (|fs| == 4 ==> Value(fs[0]) == Days(d) && (Days(d) >= 100 ==> |fs[0]| >= 3))
    && |fs[|fs| - 1]| == 2 && |fs[|fs| - 2]| == 2
    && (|fs| >= 3 ==> |fs[|fs| - 3]| == 2)
    && (|fs| == 4 && Days(d) < 100 ==> |fs[0]| == 2)
  }

  lemma {:induction false} FieldsShape(d: nat)
    ensures ShapeOk(d, Fields(d))
  {
    var units := if Days(d) > 0 then [Days(d), Hours(d), Minutes(d), Seconds(d)]
      else if Hours(d) > 0 then [Hours(d), Minutes(d), Seconds(d)]
      else [Minutes(d), Seconds(d)];
    assert Fields(d) == seq(|units|, i requires 0 <= i < |units| => Field(units[i]));
    FieldsOfUnits(units);
    if Days(d) > 0 {
      FieldIsNumeral(Days(d));
    }
  }

  lemma FieldsOfUnits(units: seq<nat>)
    ensures var fs := seq(|units|, i requires 0 <= i < |units| => Field(units[i]));
      && AllNumerals(fs)
      && (forall i :: 0 <= i < |fs| ==> |fs[i]| >= 2 && Value(fs[i]) == units[i])
      && (forall i :: 0 <= i < |fs| && units[i] < 100 ==> |fs[i]| == 2)
  {
    forall i | 0 <= i < |units| {
      FieldIsNumeral(units[i]);
    }
  }

  /** Reading a formatted duration back gives the duration. */
  lemma {:induction false} ParseFormat(d: nat)
    ensures ParseDuration(FormatDuration(d)) == Some(d)
  {
    SplitFormat(d);
    FieldsTotal(d);
  }

  lemma {:induction false} FieldsTotal(d: nat)
    ensures 2 <= |Fields(d)| <= 4 && AllNumerals(Fields(d)) && Total(Fields(d)) == d
  {
    FieldsShape(d);
    Decompose(d);
  }

  /**
   * The format is a canonical form: reformatting what is read back from a
   * formatted duration reproduces it.
   */
  lemma {:induction false} FormatIsCanonical(d: nat)
    ensures ParseDuration(FormatDuration(d)).Some?
    ensures FormatDuration(ParseDuration(FormatDuration(d)).value) == FormatDuration(d)
  {
    ParseFormat(d);
  }

  /**
   * Once there are days the hours are printed, zero or not: a whole number
   * of days and fewer than an hour shows "00" in the hours field.
   */
  lemma {:induction false} HoursShownWithDays(d: nat)
    requires Days(d) > 0 && Hours(d) == 0
    ensures |Split(FormatDuration(d))| == 4 && Split(FormatDuration(d))[1] == "00"
  {
    SplitFormat(d);
    TwoDigitField(0);
  }

  /** Below 100, a printed unit is exactly two digits: tens, then units. */
  lemma TwoDigitField(n: nat)
    requires n < 100
    ensures Field(n) == [DigitChar(n / 10), DigitChar(n % 10)]
  {
    if n < 10 {
      assert Str(n) == [DigitChar(n)];
      assert Zeros(1) == "0" == [DigitChar(0)];
    } else {
      assert Str(n / 10) == [DigitChar(n / 10)];
      assert Str(n) == [DigitChar(n / 10), DigitChar(n % 10)];
    }
  }

  /** The five durations the source's unit test checks. */
  lemma FormatExamples()
    ensures FormatDuration(10) == "00:10"
    ensures FormatDuration(75) == "01:15"
    ensures FormatDuration(4000) == "01:06:40"
    ensures FormatDuration(87123) == "01:00:12:03"
    ensures FormatDuration(187123) == "02:03:58:43"
  {
    Example(10, 0, 0, 0, 10);
    Example(75, 0, 0, 1, 15);
    Example(4000, 0, 1, 6, 40);
    Example(87123, 1, 0, 12, 3);
    Example(187123, 2, 3, 58, 43);
  }

  lemma Example(d: nat, days: nat, hours: nat, minutes: nat, seconds: nat)
    requires days < 100 && hours < 24 && minutes < 60 && seconds < 60
    requires d == days * SECONDS_PER_DAY + hours * SECONDS_PER_HOUR + minutes * SECONDS_PER_MINUTE + seconds
    ensures FormatDuration(d) ==
      if days > 0 then [DigitChar(days / 10), DigitChar(days % 10), ':', DigitChar(hours / 10), DigitChar(hours % 10), ':',
                        DigitChar(minutes / 10), DigitChar(minutes % 10), ':', DigitChar(seconds / 10), DigitChar(seconds % 10)]
      else if hours > 0 then [DigitChar(hours / 10), DigitChar(hours % 10), ':',
                              DigitChar(minutes / 10), DigitChar(minutes % 10), ':', DigitChar(seconds / 10), DigitChar(seconds % 10)]
      else [DigitChar(minutes / 10), DigitChar(minutes % 10), ':', DigitChar(seconds / 10), DigitChar(seconds % 10)]
  {
    UnitsOf(d, days, hours, minutes, seconds);
    TwoDigitField(days);
    TwoDigitField(hours);
    TwoDigitField(minutes);
    TwoDigitField(seconds);
  }

  lemma UnitsOf(d: nat, days: nat, hours: nat, minutes: nat, seconds: nat)
    requires hours < 24 && minutes < 60 && seconds < 60
    requires d == days * SECONDS_PER_DAY + hours * SECONDS_PER_HOUR + minutes * SECONDS_PER_MINUTE + seconds
    ensures Days(d) == days && Hours(d) == hours && Minutes(d) == minutes && Seconds(d) == seconds
  {
    var m := days * 1440 + hours * 60 + minutes;
    assert d == m * 60 + seconds;
    assert d / 60 == m;
    var h := days * 24 + hours;
    assert m == h * 60 + minutes;
    assert m / 60 == h;
    assert d / 3600 == h;
    assert h / 24 == days;
  }
}
