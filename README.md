# Printer cabinet firmware: timer and display helpers

This project models the two stateful helpers of a printer-enclosure monitor's
firmware, together with the small pure utilities beside them, and proves what
they promise.

- **Timer** is an edge-triggered periodic timer. It holds a reference to a shared
  job bitmask, an interval, the job bit(s) it owns, a begin time and an "already
  triggered" latch. `tick(time)` runs three ordered guards:
  1. If less than an interval has passed since the begin time (unsigned, wrap-around
     subtraction), it returns false.
  2. If its bit is still set, it returns true and changes nothing.
  3. If it is armed, it rebases to `time`, disarms and returns true. This is the
     reset stage, and the bit stays clear.
  4. Otherwise it ORs its bit into the bitmask, arms itself and returns true.

  The consumer clearing the bit is the acknowledgement.
- **Display** is a fixed grid of `Height` lines of `Width` characters, each line
  followed by a terminator column, with up to `MaxReserved` named ranges
  `(line, begin, end)`. The operations are:
  - `reserve` records a range. An id past the table is ignored.
  - `update` blanks a range, then copies as much of a string as fits.
  - `clear` blanks every visible cell.
  - `draw` hands the whole grid over in one call.
- **Min/Max** are the comparison helpers.
- **VOCTable** is the gas-resistance table with its category names.

Layout: `maths.dfy` (module `Maths`), `voc_table.dfy` (`VocTable`), `timer.dfy`
(`Timers`), `display.dfy` (`Displays`) and `display_scenario.dfy`
(`DisplayScenarios`, a client of the display).

Modelling choices:
- `unsigned long` is 32 bits on both targets. It is the subset type `ULong` of
  integers in [0, 2^32). `WrapSub` is the unsigned subtraction, proved equal to the
  difference modulo 2^32.
- The shared `int` job bitmask is a `JobFlags` object that every `Timer` holds a
  reference to, so a bit one timer raises is seen by everyone holding the same
  object. Its value is the set of positions of its one bits:
  - `jobs & mask != 0` is a non-empty intersection;
  - `jobs |= mask` is a union;
  - a consumer's `jobs &= ~mask` is a set difference.

  This is an exact correspondence with the bit pattern.
- Each `Timer` method is proved against the pure function `Step`, which gives one
  tick's new fields, new bitmask and result. `Run` folds `Step` over a sequence of
  times, and the lemmas about many ticks are stated over it.
- The grid is an `array2<char>` of `Height` × `Width+1` cells, and the ranges table
  is an `array<Range>`. `Cells()` views the grid as rows. `Overwrite` and `Cleared`
  are the pure specifications of `update` and `clear`, and the lemmas about
  idempotence, commutation and frames are stated on them.
- `memset` and `strncpy` are modelled as the C library defines them, limited to one
  row (`MemSet`, `StrNCpy`).
- `update` checks nothing in the source. It reads `m_ranges[id]` and writes
  `m_state[line][begin..end]` unguarded, so the model requires
  `id < MaxReserved`, `line < Height` and `begin <= end < Width`.
  `reserve` stores any values it is given, so no invariant is kept on the ranges
  table. The requirement is checked at `update`.
- Three points of the code's behaviour are easy to misread:
  - After an acknowledgement, the tick that finds the interval elapsed again only
    rebases and returns true with the bit clear. The bit is raised again only a
    whole interval after that rebase. With an interval of 1000 from time 0:
    `tick(1000)` raises the bit and the consumer clears it; `tick(1500)` rebases;
    `tick(2000)` returns false; `tick(2500)` raises it again.
  - `tick` returns whether the interval has elapsed, not whether the bit is set.
  - `update` does not ignore an out-of-range id. It has no check at all, which is
    why the model has a precondition.

## Model

| member | source | states |
|---|---|---|
| `Maths.Min` | src/utility.h:56-60 | the result is at most both arguments and is one of them |
| `Maths.Max` | src/utility.h:50-54 | the result is at least both arguments and is one of them |
| `VocTable.Ordinal` | src/utility.h:68 | every category's enumerator value is below `MAX` (6) |
| `VocTable.FromOrdinal` | src/utility.h:68 | the category for a value below `MAX` has that value as its ordinal |
| `VocTable.OrdinalRoundTrip` | src/utility.h:68 | ordinal and category are inverse both ways |
| `VocTable.Threshold` | src/utility.h:69 | each category's resistance in ohms: Good 431331, Average 213212, Subpar 108042, Bad 54586, Awful 27080, Severe 13591; every threshold lies between 13591 and 431331 ohms, and only Good has the highest |
| `VocTable.ThresholdsDecrease` | src/utility.h:69 | a worse category has a strictly lower resistance threshold |
| `VocTable.Name` | src/utility.cpp:40-48 | each category's name is the stringised enumerator: Good is "Good", Average "Average", Subpar "Subpar", Bad "Bad", Awful "Awful", Severe "Severe" |
| `VocTable.NamesDistinct` | src/utility.cpp:40-48 | distinct categories have distinct names |
| `Timers.WrapSub` | src/utility.h:94 | the unsigned difference is `(a - b) mod 2^32`, and the plain difference when no wrap occurs |
| `Timers.Step` | src/utility.h:91-112 | a tick returns true iff the wrapped elapsed time reaches the duration. When it returns false nothing changes. No job bit is ever cleared, no bit outside the timer's own mask changes, and the begin time either stays or becomes `time` |
| `Timers.RaisesBitIff` | src/utility.h:97-111 | a tick raises the owned bit iff the interval has elapsed, the bit was clear and the timer was not armed |
| `Timers.TrueWithBitClearIsRebase` | src/utility.h:101-107 | a tick that returns true while leaving the bit clear is exactly the reset stage, so "returned true" does not mean "bit set" |
| `Timers.UnacknowledgedIsInert` | src/utility.cpp:82-86 | while the owned bit is set, a tick changes neither the begin time, the latch nor the bitmask, and reports only whether the interval has elapsed |
| `Timers.RebaseDelaysNextFiring` | src/utility.cpp:88-94 | the reset stage at `time` rebases to `time` and disarms; no tick less than a whole interval after `time` changes anything, whatever the bitmask holds |
| `Timers.FireStage` | src/utility.h:109-111 | the set stage ORs the whole owned mask into the bitmask, arms the timer, keeps the begin time and returns true |
| `Timers.FiringCycle` | src/utility.cpp:74-99 | from any firing at `t0`: once the consumer clears the owned bits, the first tick a whole interval after the begin time only rebases, leaving the bits clear. The next tick a whole interval after that fires and raises them again |
| `Timers.AcknowledgedFiresAgain` | src/utility.cpp:88-98 | an armed timer whose bit was cleared rebases at the first elapsed tick. A tick a whole interval after that, with the bit still clear, raises the bit again |
| `Timers.RunNeverClearsJobs` | src/utility.h:85-112 | over any run of ticks the bitmask only grows, and only within the timer's own mask |
| `Timers.RunWithinInterval` | src/utility.cpp:76-80 | a run of ticks that all fall within one interval of the begin time changes nothing and returns false every time |
| `Timers.RunWhilePending` | src/utility.cpp:82-86 | while the bit stays set, a run of ticks changes nothing and never fires. Each tick reports elapsed time from the same begin time |
| `Timers.AtMostOneFiringUnacknowledged` | src/utility.h:97-111 | without an acknowledgement, a timer owning a bit takes the set stage at most once over any run of ticks |
| `Timers.Timer.constructor` | src/utility.h:79-120 | a new timer keeps its duration, bitmask reference and mask, and starts at begin time 0, disarmed |
| `Timers.Timer.Reset` | src/utility.cpp:66-70 | sets the begin time and disarms; the bitmask is outside its frame, so it is untouched |
| `Timers.Timer.Tick` | src/utility.cpp:74-99 | the new fields, the new shared bitmask and the returned value are exactly those of `Step` on the old ones |
| `Timers.AcknowledgedIntervalTrace` | src/utility.cpp:74-99 | with a duration of 1000 from a fresh timer: `tick(999)` returns false; `tick(1000)` sets the bit and the consumer clears it; `tick(1500)` returns true with the bit clear; `tick(2000)` returns false; `tick(2500)` sets the bit |
| `Timers.SharedBitmaskTrace` | src/utility.h:79-119 | two timers built on the same bitmask each raise only their own bit, and both bits end up in the shared mask |
| `Displays.ToUInt8` | src/utility.h:167 | the conversion to `uint8_t` is the identity on values below 256 |
| `Displays.CLength` | src/utility.h:167 | `strlen` counts the characters before the first NUL (all of them if there is none) |
| `Displays.CLengthWithoutNul` | src/utility.h:167 | a string with no NUL has its full length as `strlen` |
| `Displays.Fit` | src/utility.h:166-171 | a range of width n receives the first `min(n, strlen(s))` characters of `s`, then spaces; it never receives a NUL |
| `Displays.FitShortText` | src/utility.h:166-171 | a NUL-free text no longer than the range is copied whole and padded with spaces |
| `Displays.FitTruncates` | src/utility.h:166-171 | text at least as long as the range is cut to the range's width |
| `Displays.FitPads` | src/utility.h:169-171 | shorter text is padded with spaces to the range's width |
| `Displays.Overwrite` | src/utility.h:160-172 | after an update, the cells of the range hold the fitted text. Every other cell is unchanged, including other lines and the terminator column |
| `Displays.Cleared` | src/utility.h:179-185 | after clear, every cell before column `Width` is a space and the terminator column is unchanged |
| `Displays.RegionAfterOverwrite` | src/utility.h:160-172 | reading a range back after updating it gives exactly the fitted text |
| `Displays.OverwriteKeepsDisjointRegion` | src/utility.h:169-171 | an update never alters a range disjoint from the one it writes, whatever the text's length |
| `Displays.LastWriteWins` | src/utility.h:160-172 | a second update of the same range erases all trace of the first; with the same text, update is idempotent |
| `Displays.DisjointUpdatesCommute` | src/utility.h:160-172 | updates of disjoint ranges commute, so the composed grid does not depend on their order |
| `Displays.ClearedBlanksEveryRange` | src/utility.h:179-185 | after clear, every in-bounds range reads as spaces |
| `Displays.MemSet` | src/utility.h:170 | `memset` sets the given cells of one row and leaves every other cell unchanged |
| `Displays.StrNCpy` | src/utility.h:171 | `strncpy` copies the string's characters and then NULs into the given cells of one row, leaving every other cell unchanged |
| `Displays.Display.constructor` | src/utility.h:143-148 | every range starts as (0, 0, 0) and every visible cell is a space. Every terminator but the very last byte is NUL; the initial fill stops one byte short |
| `Displays.Display.Reserve` | src/utility.h:150-158 | an id past the table changes nothing; otherwise only entry `id` of the ranges table is replaced |
| `Displays.Display.Update` | src/utility.h:160-172 | the grid afterwards is `Overwrite` of the grid before on range `id` |
| `Displays.Display.Draw` | src/utility.h:174-177 | hands over the whole current grid in one piece, with the width and height |
| `Displays.Display.Clear` | src/utility.h:179-185 | the grid afterwards is `Cleared` of the grid before: every visible cell is blanked and the terminator column is untouched |
| `DisplayScenarios.TemperatureLineScenario` | src/utility.h:143-177 | on a new 16 × 2 display with range 0 reserved as line 0, cells 0 to 15, updating range 0 with any NUL-free reading of at most 16 characters and drawing shows the reading padded with spaces on line 0, and a blank line 1 |
| `DisplayScenarios.TemperatureReadingScenario` | src/utility.h:143-177 | the same with the reading "Temp 23.40*C": line 0 shows "Temp 23.40*C    " (12 characters and 4 spaces) and line 1 is 16 spaces |

## Left out

- src/main.cpp is not part of this model. It is Arduino setup and loop code: bus setup, sensor configuration, LCD and serial printing, `delay`, and float formatting through the external Arduino libraries (Wire, Adafruit_BME680, LiquidCrystal_I2C), which are not part of this firmware.
- src/pinconfig.h holds only pin constants. src/devices/bme680/bme680.h declares a sensor poll without a body.
- `EnvironmentInfo` and `LightingTest` have no behaviour. `EnvironmentInfo` holds floats.
- The firmware has no job-dispatch loop and no consumer that clears a job bit. The traces clear the bit directly, as a consumer would.
- `Display::draw`'s callback is a foreign function pointer. `Draw` returns the grid, width and height that the callback would receive.
- The job bitmask allows bit positions 0 to 31, as for a 32-bit `int`. On the 16-bit AVR target only positions 0 to 15 exist. The timer's logic is the same for both widths.
- `Maths.Min`, `Maths.Max`: modelled on integers. The source templates work over any ordered type and return by reference; every use here is on integers.
- `Displays.Display.constructor`: the last terminator byte, row `Height-1` column `Width`, is left unwritten by the initial fill. The model leaves its value unspecified.
- `Displays.Display.Update`: `(int)strlen(str)` is assumed to fit in an `int`. Under the model's precondition `end < Width <= 255`, a range is at most 255 cells, so the conversion of the copy size to `uint8_t` never truncates. The model still writes that conversion out.
- `memset` past the end of a row, and any write outside the grid, is excluded by `update`'s precondition and is not modelled.
- The in-class and out-of-line definitions of `Timer` are identical and modelled once. Rows cite whichever copy reads more clearly.
