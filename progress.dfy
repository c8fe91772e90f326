// The progress tracker of progress.py: a `Tracker` (the source's class
// `Progress`) whose three fields are set once by its constructor, the
// duration formatter `TimeToStr` as the source's loop, and the two report
// operations `Progress` and `ProgressString`.
//
// The clock is a parameter: the constructor is given the start time and each
// report the current time, both in whole seconds. The two floating-point
// results of a report, the projected total time `int(elapsed / fraction)` and
// the percentage `int(fraction * 100)`, are given to a report as opaque whole
// numbers (`quotient`, `percent`) computed by the host.

module Progress {
  import opened Decimal
  import opened TimeFormat

  /** A time in a report: text from `TimeToStr`, or whole seconds. */
  datatype Timing = Formatted(text: string) | Whole(seconds: nat)

  /** The five-element tuple that `progress` returns. */
  datatype Timings = Timings(elapsed: Timing, total: Timing, percent: nat, itemNumber: nat, totalItems: nat)

  /**
   * Python's `"%s" % t` on a time in a report: formatted text as it is,
   * whole seconds as a numeral that reads back as those seconds.
   */
  function Show(t: Timing): (s: string)
    ensures t.Formatted? ==> s == t.text
    ensures t.Whole? ==> IsDigits(s) && Value(s) == t.seconds
  {
    match t
    case Formatted(text) => text
    case Whole(n) => ValueOfStr(n); Str(n)
  }

  /** A time as the tracker's mode reports it. */
  function AsTiming(timeAsString: bool, seconds: nat): (t: Timing)
    ensures timeAsString <==> t.Formatted?
    ensures t.Formatted? ==> ParseDuration(t.text) == Some(seconds)
    ensures t.Whole? ==> t.seconds == seconds
  {
    ParseFormat(seconds);
    if timeAsString then Formatted(FormatDuration(seconds)) else Whole(seconds)
  }

  /**
   * The projected total time: 0 when nothing has been processed yet (the
   * fraction done is zero and the division by it fails), and otherwise the
   * host's truncated quotient of the elapsed time by the fraction done.
   */
  function Projection(itemNumber: nat, quotient: nat): nat {
    if itemNumber == 0 then 0 else quotient
  }

  /**
   * The line `progressstring` renders from a report: a "Done" line, padded
   * with eight spaces and ended by a newline, once every item is processed;
   * otherwise a "Progress" line of all five fields in tuple order, ended by a
   * carriage return so that the next one overwrites it.
   */
  function Render(t: Timings): string {
    if t.itemNumber == t.totalItems then
      "Done in " + Show(t.elapsed) + ", processed " + Str(t.totalItems) + " items.        \n"
    else
      "Progress: " + Show(t.elapsed) + "/" + Show(t.total) + ", " + Str(t.percent) + "%, "
      + Str(t.itemNumber) + "/" + Str(t.totalItems) + " items.\r"
  }

  predicate EndsWith(s: string, suffix: string) {
    |suffix| <= |s| && s[|s| - |suffix|..] == suffix
  }

  /**
   * The two kinds of line are told apart by their ending: a finished line
   * ends in "items." and eight spaces and a newline, any other line in
   * "items." and a carriage return; the last character alone decides which.
   */
  lemma {:induction false} LineEndings(t: Timings)
    ensures t.itemNumber == t.totalItems ==> EndsWith(Render(t), "items.        \n")
    ensures t.itemNumber != t.totalItems ==> EndsWith(Render(t), "items.\r")
    ensures |Render(t)| > 0 && (Render(t)[|Render(t)| - 1] == '\n' <==> t.itemNumber == t.totalItems)
  {
    var line := Render(t);
    if t.itemNumber == t.totalItems {
      var head := "Done in " + Show(t.elapsed) + ", processed " + Str(t.totalItems);
      assert line == head + " items.        \n";
      assert line[|line| - 15..] == "items.        \n";
    } else {
      var head := "Progress: " + Show(t.elapsed) + "/" + Show(t.total) + ", " + Str(t.percent) + "%, "
                  + Str(t.itemNumber) + "/" + Str(t.totalItems);
      assert line == head + " items.\r";
      assert line[|line| - 7..] == "items.\r";
    }
  }

  class Tracker {
    const totalItems: nat
    const startTime: nat
    const timeAsString: bool

    /**
     * A tracker for `totalItems` items, started at `startTime`; it reports
     * formatted times unless `timeAsString` is given as false.
     */
    constructor (totalItems: nat, startTime: nat, timeAsString: bool := true)
      ensures this.totalItems == totalItems
      ensures this.startTime == startTime
      ensures this.timeAsString == timeAsString
    {
      this.totalItems := totalItems;
      this.startTime := startTime;
      this.timeAsString := timeAsString;
    }

    /**
     * Formats a duration. The leading units, days then hours, are visited in
     * turn; a sticky flag turns on at the first non-zero one, and from then
     * on each unit is printed, so zero hours are printed after non-zero days.
     */
    method TimeToStr(duration: nat) returns (timestring: string)
      ensures timestring == FormatDuration(duration)
    {
      var timelist := [duration / SECONDS_PER_DAY, (duration / SECONDS_PER_HOUR) % 24];
      timestring := "";
      var printall := false;
      for i := 0 to |timelist|
        invariant printall <==> AnyNonZero(timelist[..i])
        invariant timestring == Leading(timelist[..i])
      {
        var item := timelist[i];
        assert timelist[..i + 1] == timelist[..i] + [item];
        LeadingStep(timelist[..i], item);
        printall := printall || item != 0;
        if printall {
          timestring := timestring + Field(item) + ":";
        }
      }
      assert timelist[..|timelist|] == [Days(duration), Hours(duration)];
      FormatFromLeading(duration);
      timestring := timestring + Field((duration / SECONDS_PER_MINUTE) % 60) + ":" + Field(duration % 60);
    }

    /**
     * The report for `itemNumber` items processed by time `now`: the elapsed
     * and projected total times, formatted or in whole seconds as the mode
     * says, the percentage, and the item count and total passed through.
     */
    method Progress(itemNumber: nat, now: nat, quotient: nat, percent: nat) returns (t: Timings)
      requires totalItems != 0
      requires startTime <= now
      ensures t.elapsed == AsTiming(timeAsString, now - startTime)
      ensures itemNumber == 0 ==> t.total == AsTiming(timeAsString, 0)
      ensures itemNumber != 0 ==> t.total == AsTiming(timeAsString, quotient)
      ensures t.percent == percent
      ensures t.itemNumber == itemNumber && t.totalItems == totalItems
    {
      var elapsed := now - startTime;
      var total: nat;
      if itemNumber == 0 {
        total := 0;
      } else {
        total := quotient;
      }
      if timeAsString {
        var elapsedText := TimeToStr(elapsed);
        var totalText := TimeToStr(total);
        t := Timings(Formatted(elapsedText), Formatted(totalText), percent, itemNumber, totalItems);
      } else {
        t := Timings(Whole(elapsed), Whole(total), percent, itemNumber, totalItems);
      }
    }

    /** The line that reports `itemNumber` items processed by time `now`. */
    method ProgressString(itemNumber: nat, now: nat, quotient: nat, percent: nat) returns (line: string)
      requires totalItems != 0
      requires startTime <= now
      ensures line == Render(Timings(AsTiming(timeAsString, now - startTime),
                                     AsTiming(timeAsString, Projection(itemNumber, quotient)),
                                     percent, itemNumber, totalItems))
    {
      var timings := Progress(itemNumber, now, quotient, percent);
      line := Render(timings);
    }
  }

  /** The unit test's tracker, `Progress(100)`: the mode defaults to formatted times. */
  method UnitTestTracker(startTime: nat) returns (tracker: Tracker)
    ensures fresh(tracker)
    ensures tracker.totalItems == 100 && tracker.startTime == startTime && tracker.timeAsString
  {
    tracker := new Tracker(100, startTime);
  }

  // ---------------------------------------------------------------------
  // The loop of `TimeToStr`, stated on the prefix of units it has visited

  ghost predicate AnyNonZero(units: seq<nat>) {
    exists j :: 0 <= j < |units| && units[j] != 0
  }

  /** What the loop has printed after visiting `units`. */
  ghost function Leading(units: seq<nat>): string {
    if units == [] then ""
    else Leading(units[..|units| - 1]) + (if AnyNonZero(units) then Field(units[|units| - 1]) + ":" else "")
  }

  lemma LeadingStep(units: seq<nat>, unit: nat)
    ensures AnyNonZero(units + [unit]) <==> AnyNonZero(units) || unit != 0
    ensures Leading(units + [unit]) == Leading(units) + (if AnyNonZero(units + [unit]) then Field(unit) + ":" else "")
  {
    var all := units + [unit];
    assert all[..|all| - 1] == units;
    if AnyNonZero(units) {
      var j :| 0 <= j < |units| && units[j] != 0;
      assert all[j] != 0;
    }
    if unit != 0 {
      assert all[|units|] != 0;
    }
    if AnyNonZero(all) && unit == 0 {
      var j :| 0 <= j < |all| && all[j] != 0;
      assert j < |units| && units[j] != 0;
    }
  }

  /** After visiting the days and the hours, the loop has printed the leading part of the format. */
  lemma LeadingOfTwo(days: nat, hours: nat)
    ensures Leading([days, hours]) ==
      if days > 0 then Field(days) + ":" + Field(hours) + ":"
      else if hours > 0 then Field(hours) + ":"
      else ""
  {
    LeadingStep([], days);
    LeadingStep([days], hours);
    assert [] + [days] == [days] && [days] + [hours] == [days, hours];
  }

  /** The format is what the loop prints for days and hours, then minutes and seconds. */
  lemma FormatFromLeading(d: nat)
    ensures FormatDuration(d) == Leading([Days(d), Hours(d)]) + Field(Minutes(d)) + ":" + Field(Seconds(d))
  {
    LeadingOfTwo(Days(d), Hours(d));
  }
}
