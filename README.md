# Progress tracker, modelled in Dafny

A model of `progress.py`, a small helper that tracks how far an operation over
a known number of items has gone. A tracker (the class `Progress`, here
`Progress.Tracker`) is created with the total item count, the start time and a
mode flag. It then answers two queries for a given number of processed items:

- `progress` returns a five-element report: the elapsed time, the projected
  total time, the percentage done, the item count and the total;
- `progressstring` renders that report as one line for a terminal.

In the default mode both times are formatted by `timetostr` as `MM:SS`,
`HH:MM:SS` or `DD:HH:MM:SS`. In the other mode they are whole seconds.

The project has three modules:

- `Decimal` (`decimal.dfy`): Python's `str` on a non-negative integer, `zfill`,
  and the value of a numeral read back.
- `TimeFormat` (`time_format.dfy`): a reference definition of the duration
  format (`FormatDuration`), a reader for it (`ParseDuration`), and the
  properties of the format: the number of fields, their ranges and widths,
  the round trip, and the unit test's five examples.
- `Progress` (`progress.dfy`): the tracker class. `TimeToStr` is the source's
  loop with its sticky `printall` flag, proved equal to `FormatDuration`.
  `Progress` and `ProgressString` are the two reports.

The clock is a parameter. The constructor takes the start time, and each
report takes the current time; both are whole seconds. The projected total
`int(elapsed / fraction)` and the percentage `int(fraction * 100)` are
floating-point results in the source. A report takes them as opaque whole
numbers, `quotient` and `percent`. The model proves where they go, and that
the projected total is 0 when no item has been processed.

## Model

| member | source | states |
|---|---|---|
| `Progress.Tracker.constructor` | progress.py:12-17 | the three fields (total items, start time, mode) take the given values, the mode defaulting to formatted times; they are `const`, so no later call changes them |
| `Progress.UnitTestTracker` | progress.py:75-76 | `Progress(100)` as the unit test builds it: 100 items and, by default, formatted times |
| `Progress.Tracker.TimeToStr` | progress.py:19-34 | the loop over [days, hours mod 24] with its sticky flag, followed by minutes and seconds, yields exactly `FormatDuration(duration)` |
| `Progress.LeadingStep` | progress.py:28-31 | one loop step: the flag is on after a unit iff it was on before or the unit is non-zero, and the unit is printed with its colon exactly when the flag is on |
| `Progress.LeadingOfTwo` | progress.py:25-31 | after days and hours, the loop has printed "DD:HH:" when days > 0 (hours even when zero), "HH:" when only hours > 0, and nothing otherwise |
| `Progress.FormatFromLeading` | progress.py:26-33 | the reference format is what the loop prints for days and hours, followed by the minutes and seconds fields |
| `Progress.Tracker.Progress` | progress.py:36-61 | elapsed is `now - startTime`; projected total is 0 when `itemNumber == 0` (the division guard) and the host's quotient otherwise; both are `FormatDuration` text in string mode and whole seconds otherwise; percent, item number and total pass through unchanged in tuple positions 3, 4 and 5 |
| `Progress.AsTiming` | progress.py:47-61 | string mode gives formatted text, integer mode whole seconds; formatted text reads back to the same number of seconds |
| `Progress.Projection` | progress.py:43-46 | definition of the division guard: 0 when no item is processed, otherwise the host's quotient; its use is stated by `Progress.Tracker.Progress` |
| `Progress.Show` | progress.py:67-70 | `%s` on a report time: formatted text unchanged, whole seconds as a numeral that reads back as those seconds |
| `Progress.Render` | progress.py:66-70 | definition of the two templates, the "Done" line when `itemNumber == totalItems` and the "Progress" line of all five fields otherwise; its properties are stated by `Progress.LineEndings` |
| `Progress.Tracker.ProgressString` | progress.py:63-70 | the line is the report of `Progress` rendered by the template that `itemNumber == totalItems` selects |
| `Progress.LineEndings` | progress.py:66-70 | a finished line ends in "items." plus eight spaces and "\n", any other line in "items.\r"; the last character is '\n' iff every item is processed |
| `TimeFormat.FormatDuration` | progress.py:24-33 | reference definition of the format (minutes and seconds, preceded by hours when hours or days are non-zero, preceded by days when days are non-zero); its properties are stated by `TimeFormat.FormatShape`, `TimeFormat.ParseFormat` and `TimeFormat.FormatExamples`, and `Progress.Tracker.TimeToStr` is proved equal to it |
| `TimeFormat.Field` | progress.py:31-33 | definition of one printed unit, `str(n).zfill(2)`; its properties are stated by `TimeFormat.FieldIsNumeral` and `TimeFormat.TwoDigitField` |
| `TimeFormat.FormatShape` | progress.py:24-33 | the string splits at colons into 4 fields when days > 0, 3 when days == 0 and hours > 0, and 2 otherwise; every field is a numeral of at least two digits, and exactly two for minutes, seconds, hours and days below 100; the last two read back as minutes and seconds (< 60), a third from the end as hours (< 24), and a fourth as days, with 3 or more digits from 100 days on |
| `TimeFormat.FieldsShape` | progress.py:24-33 | the same shape, stated on the list of printed fields |
| `TimeFormat.HoursShownWithDays` | progress.py:27-31 | with days > 0 and hours == 0 there are still four fields, and the hours field is "00" |
| `TimeFormat.ParseFormat` | progress.py:24-33 | reading the fields back as D, H, M, S gives `D*86400 + H*3600 + M*60 + S == d`, with absent fields counting as 0 |
| `TimeFormat.FieldsTotal` | progress.py:25-33 | the printed fields are 2 to 4 numerals whose weighted total is the duration |
| `TimeFormat.FormatIsCanonical` | progress.py:19-34 | formatting the duration read back from a formatted duration gives the same string |
| `TimeFormat.Decompose` | progress.py:25-33 | a duration equals days*86400 + hours*3600 + minutes*60 + seconds; without days, hours is `d / 3600`; without days and hours, minutes is `d / 60` |
| `TimeFormat.FormatIsJoin` | progress.py:26-33 | the formatted duration is the printed fields joined by colons |
| `TimeFormat.SplitFormat` | progress.py:26-33 | splitting the formatted duration at its colons gives back the printed fields |
| `TimeFormat.FieldIsNumeral` | progress.py:31-33 | one printed unit `str(n).zfill(2)` is a colon-free numeral; it is 2 long below 100 and as long as `str(n)` from 100 on (so 3 or more digits), and it reads back as `n` |
| `TimeFormat.TwoDigitField` | progress.py:31-33 | below 100 a printed unit is the tens digit followed by the units digit |
| `TimeFormat.FormatExamples` | progress.py:78-86 | 10 → "00:10", 75 → "01:15", 4000 → "01:06:40", 87123 → "01:00:12:03", 187123 → "02:03:58:43" |
| `Decimal.Str` | progress.py:31-33 | definition of `str(n)` for a non-negative integer; its properties are stated by `Decimal.StrShape` and `Decimal.ValueOfStr` |
| `Decimal.ZFill` | progress.py:31-33 | definition of `zfill` on an unsigned numeral; its properties are stated by `Decimal.ZFillShape` and `Decimal.PaddedNumeral` |
| `Decimal.StrShape` | progress.py:31-33 | `str(n)` is all digits; it has 1 digit iff n < 10 and 3 or more iff n ≥ 100, and has no leading zero unless it is "0" |
| `Decimal.ValueOfStr` | progress.py:31-33 | `str(n)` reads back as `n` |
| `Decimal.ZFillShape` | progress.py:31-33 | `zfill` pads to the width and never truncates: the input is a suffix of the result, and the rest is zeros |
| `Decimal.ValueIgnoresLeadingZeros` | progress.py:31-33 | the zeros that `zfill` adds do not change the value of a numeral |
| `Decimal.PaddedNumeral` | progress.py:31-33 | `str(n).zfill(w)` is a numeral at least `w` long, never shorter than `str(n)`, that reads back as `n` |

## Left out

- The wall clock (`time.time()`, progress.py:16 and 40). The start time and the current time are parameters in whole seconds, so the truncation `int(elapsed)` of fractional seconds is not modelled.
- Floating-point arithmetic (progress.py:42, 44, 51, 58). The fraction done, the projected total and the percentage are computed by the host and passed in as `quotient` and `percent`.
- Progress.Tracker.Progress: states no formula for the percentage or for the projected total when `itemNumber != 0`, because floating-point rounding makes them differ from integer division.
- The division guard is modelled as `itemNumber == 0`. In the source, the guard fires when the float fraction `itemnumber / totalitems` is zero, and that happens only for `itemnumber == 0`.
- `totalitems == 0`. The source raises an uncaught `ZeroDivisionError` at progress.py:42, outside the `try`, so `Progress` and `ProgressString` require `totalItems != 0`.
- Negative durations, negative item counts and a current time before the start time. Python's floor division and modulo on negative durations are not part of the format, so counts and times are `nat` and reports require `startTime <= now`.
- The unreachable `return progstr` at progress.py:71, which names an undefined variable.
- The `unittest` harness and the `__main__` block (progress.py:74-90). Only the five test vectors are kept, as `FormatExamples`.
- `printall |= item` makes the flag an integer in Python. The model keeps it as a boolean, which is true exactly when the integer is non-zero.
- `zfill`'s handling of a leading sign is left out; the model only formats non-negative numbers.
- `TimeToStr` takes whole seconds; `int(duration)` on a float argument is not modelled.
