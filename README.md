# DigitalInputTrigger — a Dafny model of the interrupt-to-task handoff

`DigitalInputTrigger` watches one ESP32 GPIO pin. Its interrupt handler
`trigger()` records the first edge after the last clear: it sets
`triggered` and saves the milliseconds since the baseline in
`elapsedMillis`. Later edges are merged into that first one. The periodic
task `runTask(elapsed)` does nothing until the task period is over. Once it
is over and an edge is pending, it logs the edge as (id, epoch seconds,
milliseconds) and calls `clearTrigger()`, which sets a new baseline. The
baseline is a `millis()` reading plus a `getEpoch()` reading. `begin()`
samples the wall clock for up to ten rounds. If the clock reads as set
afterwards, it clears and returns true. Otherwise it returns false without
clearing.
`configureInput()` looks up the pin mode and the trigger mode by name in
two `std::map` tables.

The model has five modules:

- `Word32`: `ulong`, which is 32 bits on the ESP32. Subtraction and
  addition wrap modulo 2^32.
- `PinTables`: the pin-mode and interrupt-mode enumerations and their names.
  It also holds the ESP32 Arduino core constants, the `modes` and `triggers`
  tables, the option lists the configuration document advertises, and
  `std::map::operator[]`, which reads a missing key as 0 and inserts it.
- `TriggerModel`: the trigger state as a value. `Claim`, `Clear` and `Poll`
  model `trigger()`, `clearTrigger()` and `runTask()`. Interleavings of the
  handler and the task are event sequences, each event one atomic step, and
  the lemmas here are about those sequences.
- `DigitalInput`: the class `DigitalInputTrigger` with the source's fields.
  The `ensures` of `Trigger`, `ClearTrigger`, `RunTask` and `Begin` tie the
  new trigger fields to the `TriggerModel` functions. `GetConfig`,
  `SetConfig` and `ConfigureInput` concern the configuration, the pin setup
  and the name tables. The module also has the retry count of `begin()` and
  the configuration document's fields.
- `Wrappers`: `Option`.

Clock readings are method parameters: `millis()` is `now` and
`getEpoch()` is `epoch`. In `begin()`, call k of `getEpoch()` returns
`epochAt(k)`. The HAL's answers are parameters too.

The numeric pin-mode and interrupt-mode constants come from the ESP32
Arduino core's `esp32-hal-gpio.h`, which is not part of this model:
INPUT 0x01, INPUT_PULLUP 0x05, INPUT_PULLDOWN 0x09, OPEN_DRAIN 0x10, and
DISABLED 0x00 to ONHIGH_WE 0x0D. The lemmas depend only on three facts about
them: the constants are distinct, no pin-mode constant is 0, and DISABLED
is 0.

What the code does, and does not do:

- `begin()` always waits for the clock. It samples `getEpoch()` at most 10
  times in its loop and compares each sample with `< 10000`.
- `configureInput()` does not reject an unknown mode or trigger name. Such a
  name reads as 0, so an unknown trigger name arms the interrupt as
  DISABLED.
- No critical section is taken anywhere.

One consequence of the code that the model makes explicit: the baseline is
refreshed only when an edge is reported. If an edge comes 2^32 ms (about
49.7 days) or more after the last clear, the wrapping subtraction gives the
wrong delay. `TriggerModel.ClaimMeasuresDelay` proves that the delay is
right when it is below 2^32 ms, and only then.

## Model

| member | source | states |
|---|---|---|
| `Word32.Sub` | src/DigitalInputTrigger.cpp:125 | `ulong` subtraction: the result plus the subtrahend is the minuend modulo 2^32; it is the plain difference when no borrow occurs, and the difference plus 2^32 otherwise |
| `Word32.Add` | src/DigitalInputTrigger.cpp:107 | `ulong` addition: the plain sum while it fits in 32 bits, the sum minus 2^32 when it does not |
| `Word32.SubMeasuresDelay` | src/DigitalInputTrigger.cpp:125 | subtracting the earlier reading of a wrapping millisecond counter from a later one gives the true delay if and only if the delay is below 2^32 ms |
| `PinTables.Index` | src/DigitalInputTrigger.cpp:93-98 | `std::map::operator[]`: afterwards the key is present and the value read is its entry; the key set grows by exactly the key looked up; existing entries keep their values |
| `PinTables.IndexAnswersFromBase` | src/DigitalInputTrigger.cpp:93-98 | on a table grown only by lookups, a lookup returns the original table's value, or 0 for a name it lacks, and the table stays that way |
| `PinTables.ModesMatchOptions` | src/DigitalInputTrigger.h:32 | `modes` has exactly the names "Input", "Pullup", "Pulldown" and "Open Drain" that getConfig lists as mode options; the list has 4 distinct names and the table 4 keys; each pin mode's name maps to its constant, and each key names a mode |
| `PinTables.TriggersMatchOptions` | src/DigitalInputTrigger.h:35 | `triggers` has exactly the names getConfig lists as trigger options, "Disabled" first and "High with Wakeup" last; each interrupt mode's name maps to its constant, and each key names a mode |
| `PinTables.TriggerCount` | src/DigitalInputTrigger.cpp:41-48 | the trigger options list has 8 distinct names and `triggers` has 8 keys |
| `PinTables.ModeCodesDistinct` | src/DigitalInputTrigger.h:32 | two pin modes have the same name, or the same constant, only if they are the same mode; no constant is 0 |
| `PinTables.TriggerCodesDistinct` | src/DigitalInputTrigger.h:35 | two interrupt modes have the same name, or the same constant, only if they are the same mode; only Disabled has constant 0 |
| `PinTables.UnknownModeSelectsNoMode` | src/DigitalInputTrigger.cpp:93 | looking up a name missing from `modes` is not rejected; it yields 0, which is the constant of no pin mode |
| `PinTables.UnknownTriggerActsAsDisabled` | src/DigitalInputTrigger.cpp:98 | looking up a name missing from `triggers` is not rejected; it yields the same constant as "Disabled" |
| `TriggerModel.ReportOf` | src/DigitalInputTrigger.cpp:107-108 | the report carries the configured id and a millisecond part below 1000; when the seconds do not wrap, seconds minus the baseline epoch, times 1000, plus the ms part gives back `elapsedMillis` exactly; when they do wrap, the reported second is below the baseline |
| `TriggerModel.Poll` | src/DigitalInputTrigger.cpp:104-112 | a report is produced if and only if the period is over and an edge is pending; without a report the state is unchanged; with one, the report is `ReportOf` the old state and the new state is unflagged with the new baseline |
| `TriggerModel.Claim` | src/DigitalInputTrigger.cpp:122-127 | trigger(): afterwards an edge is pending; a pending edge is left as it is; otherwise the baseline reading plus the recorded delay is the interrupt's millis() reading modulo 2^32; the baseline is never touched |
| `TriggerModel.Clear` | src/DigitalInputTrigger.cpp:115-119 | clearTrigger(): no edge pending, the baseline is the given millis() and epoch readings, and `elapsedMillis` is kept |
| `TriggerModel.Step` | src/DigitalInputTrigger.cpp:104-127 | one atomic call of the handler or the task: an interrupt, or a runTask call before the period is over, never reports; an interrupt always leaves an edge pending; a report needs a pending edge, is `ReportOf` it, and leaves none pending |
| `TriggerModel.Run` | src/DigitalInputTrigger.cpp:104-127 | a sequence of atomic calls: at most one report per event, each report with the configured id and a millisecond part below 1000 |
| `DigitalInput.AttemptsFrom` | src/DigitalInputTrigger.cpp:14-18 | the remaining rounds of begin()'s do-while loop after `t` rounds: at least `t` and at most 10 rounds in all; every sample before the last is below 10000; if it stops before 10 rounds, the last sample is at least 10000 |
| `TriggerModel.ClaimIdempotent` | src/DigitalInputTrigger.cpp:122-127 | after one claim, any further interrupt leaves the state as it is, so the first edge's `elapsedMillis` is kept |
| `TriggerModel.ClaimAfterClear` | src/DigitalInputTrigger.cpp:115-127 | an interrupt right after a clear is always claimed, and its delay is measured from the clear's `millis()` reading |
| `TriggerModel.ClaimMeasuresDelay` | src/DigitalInputTrigger.cpp:122-126 | with no edge pending, the delay a claim records is the true delay since the baseline if and only if that delay is below 2^32 ms |
| `TriggerModel.ReportExample` | src/DigitalInputTrigger.cpp:107-108 | a clear at 5000 ms and epoch 1,700,000,000 followed by an edge at 6234 ms is reported as 1,700,000,001 s and 234 ms |
| `TriggerModel.PendingSurvivesQuiet` | src/DigitalInputTrigger.cpp:104-127 | while an edge is pending, any run of interrupts and runTask calls made before the period is over produces no report and changes nothing |
| `TriggerModel.CoalescedBurstReportsOnce` | src/DigitalInputTrigger.cpp:104-127 | with no edge pending, a burst of one or more interrupts (mixed with runTask calls made before the period) followed by one runTask call after the period produces exactly one report; the report is timed at the first interrupt, and the state ends cleared with the new baseline |
| `TriggerModel.ReportsBoundedByInterrupts` | src/DigitalInputTrigger.cpp:104-127 | over any interleaving, the number of reports is at most the number of interrupts, plus one if an edge was already pending |
| `DigitalInput.SyncAttempts` | src/DigitalInputTrigger.cpp:14-18 | the do-while loop of begin() runs between 1 and 10 times; every epoch sample before the last is below 10000; if it stops before 10 rounds, the last sample is at least 10000 |
| `DigitalInput.SyncAttemptsUnique` | src/DigitalInputTrigger.cpp:14-18 | those three properties determine the number of rounds |
| `DigitalInput.SyncedClockNeedsOneAttempt` | src/DigitalInputTrigger.cpp:14-18 | when the first sample is already valid, the loop runs once |
| `DigitalInput.StuckClockExhaustsAttempts` | src/DigitalInputTrigger.cpp:14-22 | when the clock stays below 10000 for the first eleven samples, the loop runs 10 times and the final check fails |
| `DigitalInput.DigitalInputTrigger.constructor` | src/DigitalInputTrigger.h:52-68 | a new object has `triggered` false, `elapsedMillis`, `currentMillis` and `lastRunTime` 0, `taskEnabled` false, the given pin, and `modes` and `triggers` equal to the declared tables |
| `DigitalInput.DigitalInputTrigger.Begin` | src/DigitalInputTrigger.cpp:12-26 | begin() succeeds if and only if the getEpoch() sample after the loop is at least 10000; on success the state is exactly a clearTrigger() with the next readings, and on failure it is unchanged |
| `DigitalInput.DigitalInputTrigger.GetConfig` | src/DigitalInputTrigger.cpp:30-59 | reading the document's entries back gives the current configuration, task name and task period; the option lists are the fixed mode and trigger lists |
| `DigitalInput.DigitalInputTrigger.SetConfig` | src/DigitalInputTrigger.cpp:64-88 | an unparsable document fails and changes nothing; otherwise every configuration field is assigned, even when arming fails; the pin is configured; the pin-mode constant is the `modes` value of the parsed mode name, or 0; the interrupt constant is the `triggers` value of the parsed trigger name, or 0, when the pin has an interrupt, and none otherwise; the tables grow only by the names looked up; enableTask(taskEnabled) is called only if the pin has an interrupt; the result is true exactly when it parsed, the pin has an interrupt and enableTask succeeded |
| `DigitalInput.DigitalInputTrigger.ConfigureInput` | src/DigitalInputTrigger.cpp:92-100 | the pin mode is the `modes` value of the configured name, or 0; the interrupt is attached, with the `triggers` value or 0, exactly when digitalPinToInterrupt is not -1; the tables grow only by the names looked up, and still answer as declared |
| `DigitalInput.DigitalInputTrigger.RunTask` | src/DigitalInputTrigger.cpp:104-112 | the new state and the report are those of `Poll`; before the period, or with no edge pending, there is no report and nothing changes |
| `DigitalInput.DigitalInputTrigger.ClearTrigger` | src/DigitalInputTrigger.cpp:115-119 | sets `currentMillis` to the millis() reading and `lastRunTime` to the epoch reading, and drops `triggered`; `elapsedMillis` is kept |
| `DigitalInput.DigitalInputTrigger.Trigger` | src/DigitalInputTrigger.cpp:122-127 | afterwards an edge is pending; if none was pending, `elapsedMillis` is the wrapping difference between now and `currentMillis`; if one was, nothing changes |

## Left out

- Concurrency between the interrupt handler and the task is not modelled: no spinlock and no atomics or memory ordering. Each method is one atomic step, and an interleaving is a sequence of such steps. For this reason the two loads of `elapsedMillis` in runTask read the same value.
- `interrupt_time` is declared but never used, so it is not modelled.
- ArduinoJson is not modelled. A parse failure is `None`, and a successful parse is the `ParsedConfig` of values that `as<T>()` reads. Conversions of missing or mistyped entries and the serialized string are outside the model.
- Log output is not modelled. The event report is the tuple `Report(id, seconds, millis)`, and the "Deserialization failed" and "Pin does not support interrupts" messages are omitted.
- HAL calls are not executed. `digitalPinToInterrupt` is the parameter `irq`. `pinMode` and `attachInterrupt` are only recorded, in `PinSetup`. `delay(1000)` in begin() is not modelled; time passing shows only in the readings passed in.
- The periodic-task framework is not modelled. The result of `enableTask` is a parameter, and scheduling is left out. The initial task name and period are constructor parameters.
- `getEpoch()` readings are taken to be `ulong` values already, because its return type is not part of this model.
- DigitalInputTrigger.constructor: the id field, which the C++ leaves uninitialised, is taken as a parameter. The mode and trigger names start as empty strings.
- DigitalInputTrigger.Begin: the millis() reading its clearTrigger() uses is the parameter `now`, not derived from the ten one-second delays.
- The header declares `runTask(ulong)` but the definition takes `long`. `elapsed` and the task period are plain integers compared with `>=`.
