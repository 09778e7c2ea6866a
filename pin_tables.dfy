/**
 * The two constant name tables of the digital input: `modes` maps a pin-mode
 * name to the HAL's pin-mode constant, `triggers` maps an interrupt-trigger
 * name to the HAL's interrupt-mode constant.  The closed enumerations give the
 * names and constants one place each; the tables and the option lists that
 * the configuration document advertises are built from them and proved to
 * agree.  Lookups follow `std::map<String, int>::operator[]`: a missing key
 * yields 0 and is inserted with that value.
 */
module PinTables {
  /** The electrical modes a name in `modes` can select. */
  datatype PinMode = Input | Pullup | Pulldown | OpenDrain

  /** The interrupt conditions a name in `triggers` can select. */
  datatype InterruptMode =
    | Disabled | Rising | Falling | Change
    | OnLow | OnHigh | OnLowWakeup | OnHighWakeup

  /** The key `modes` uses for a pin mode. */
  function ModeName(m: PinMode): string {
    match m
    case Input => "Input"
    case Pullup => "Pullup"
    case Pulldown => "Pulldown"
    case OpenDrain => "Open Drain"
  }

  /** The ESP32 Arduino core's constant for a pin mode (INPUT, INPUT_PULLUP, INPUT_PULLDOWN, OPEN_DRAIN). */
  function ModeCode(m: PinMode): int {
    match m
    case Input => 0x01
    case Pullup => 0x05
    case Pulldown => 0x09
    case OpenDrain => 0x10
  }

  /** The key `triggers` uses for an interrupt mode. */
  function TriggerName(t: InterruptMode): string {
    match t
    case Disabled => "Disabled"
    case Rising => "Rising"
    case Falling => "Falling"
    case Change => "Change"
    case OnLow => "Low"
    case OnHigh => "High"
    case OnLowWakeup => "Low with Wakeup"
    case OnHighWakeup => "High with Wakeup"
  }

  /** The ESP32 Arduino core's constant for an interrupt mode (DISABLED .. ONHIGH_WE). */
  function TriggerCode(t: InterruptMode): int {
    match t
    case Disabled => 0x00
    case Rising => 0x01
    case Falling => 0x02
    case Change => 0x03
    case OnLow => 0x04
    case OnHigh => 0x05
    case OnLowWakeup => 0x0C
    case OnHighWakeup => 0x0D
  }

  /** The `modes` table as the object is constructed with it. */
  const Modes: map<string, int> := map[
    ModeName(Input) := ModeCode(Input),
    ModeName(Pullup) := ModeCode(Pullup),
    ModeName(Pulldown) := ModeCode(Pulldown),
    ModeName(OpenDrain) := ModeCode(OpenDrain)]

  /** The `triggers` table as the object is constructed with it. */
  const Triggers: map<string, int> := map[
    TriggerName(Disabled) := TriggerCode(Disabled),
    TriggerName(Rising) := TriggerCode(Rising),
    TriggerName(Falling) := TriggerCode(Falling),
    TriggerName(Change) := TriggerCode(Change),
    TriggerName(OnLow) := TriggerCode(OnLow),
    TriggerName(OnHigh) := TriggerCode(OnHigh),
    TriggerName(OnLowWakeup) := TriggerCode(OnLowWakeup),
    TriggerName(OnHighWakeup) := TriggerCode(OnHighWakeup)]

  /** The "options" list the configuration document gives for the mode, in its order. */
  const ModeOptions: seq<string> := ["Input", "Pullup", "Pulldown", "Open Drain"]

  /** The "options" list the configuration document gives for the trigger, in its order. */
  const TriggerOptions: seq<string> :=
    ["Disabled", "Rising", "Falling", "Change", "Low", "High", "Low with Wakeup", "High with Wakeup"]

  /** Whether no string appears twice in `s`. */
  predicate Distinct(s: seq<string>) {
    forall i, j :: 0 <= i < j < |s| ==> s[i] != s[j]
  }

  /** The pair `std::map::operator[]` leaves behind: the (possibly grown) map and the value read. */
  datatype Indexed = Indexed(table: map<string, int>, value: int)

  /** `table[key]` on a `std::map<String, int>`: a missing key reads as 0 and is inserted with 0. */
  function Index(table: map<string, int>, key: string): (r: Indexed)
    ensures key in r.table && r.value == r.table[key]
    ensures r.table.Keys == table.Keys + {key}
    ensures forall k :: k in table ==> r.table[k] == table[k]
  {
    if key in table then Indexed(table, table[key]) else Indexed(table[key := 0], 0)
  }

  /**
   * `t` is `base` with zero or more keys added, each added key mapped to 0:
   * what a table becomes under any number of `operator[]` lookups.
   */
  ghost predicate ExtendsWithDefaults(t: map<string, int>, base: map<string, int>) {
    && base.Keys <= t.Keys
    && forall k :: k in t ==> t[k] == (if k in base then base[k] else 0)
  }

  /** A lookup answers as the original table would, with 0 for a name it lacks, and keeps the table so. */
  lemma IndexAnswersFromBase(t: map<string, int>, base: map<string, int>, key: string)
    requires ExtendsWithDefaults(t, base)
    ensures Index(t, key).value == (if key in base then base[key] else 0)
    ensures ExtendsWithDefaults(Index(t, key).table, base)
  {
  }

  /** `modes` has exactly the four names the document offers, each once, each naming its own mode. */
  lemma ModesMatchOptions()
    ensures forall k :: k in Modes <==> k in ModeOptions
    ensures |ModeOptions| == 4 && Distinct(ModeOptions)
    ensures |Modes| == 4
    ensures forall m: PinMode :: ModeName(m) in Modes && Modes[ModeName(m)] == ModeCode(m)
    ensures forall k :: k in Modes ==> exists m: PinMode :: ModeName(m) == k
  {
  }

  /** `triggers` has exactly the eight names the document offers, each naming its own mode. */
  lemma TriggersMatchOptions()
    ensures forall k :: k in Triggers <==> k in TriggerOptions
    ensures TriggerOptions[0] == "Disabled" && TriggerOptions[7] == "High with Wakeup"
    ensures forall t: InterruptMode :: TriggerName(t) in Triggers && Triggers[TriggerName(t)] == TriggerCode(t)
    ensures forall k :: k in Triggers ==> exists t: InterruptMode :: TriggerName(t) == k
  {
  }

  /** The trigger options list names each of the eight modes once, so `triggers` has eight keys. */
  lemma TriggerCount()
    ensures |TriggerOptions| == 8 && Distinct(TriggerOptions)
    ensures |Triggers| == 8
  {
    var keys := {"Disabled", "Rising", "Falling", "Change", "Low", "High",
                 "Low with Wakeup", "High with Wakeup"};
    assert Triggers.Keys == keys;
    assert |keys| == 8;
  }

  /** Distinct modes have distinct names and distinct constants, none of them 0. */
  lemma ModeCodesDistinct(a: PinMode, b: PinMode)
    ensures ModeName(a) == ModeName(b) <==> a == b
    ensures ModeCode(a) == ModeCode(b) <==> a == b
    ensures ModeCode(a) != 0
  {
  }

  /** Distinct interrupt modes have distinct names and distinct constants; only Disabled is 0. */
  lemma TriggerCodesDistinct(a: InterruptMode, b: InterruptMode)
    ensures TriggerName(a) == TriggerName(b) <==> a == b
    ensures TriggerCode(a) == TriggerCode(b) <==> a == b
    ensures TriggerCode(a) == 0 <==> a == Disabled
  {
  }

  /** An unknown mode name selects the constant 0, which is not the constant of any pin mode. */
  lemma UnknownModeSelectsNoMode(t: map<string, int>, key: string, m: PinMode)
    requires ExtendsWithDefaults(t, Modes)
    requires key !in Modes
    ensures Index(t, key).value == 0 != ModeCode(m)
  {
    IndexAnswersFromBase(t, Modes, key);
  }

  /** An unknown trigger name is not rejected: it selects the same constant as "Disabled". */
  lemma UnknownTriggerActsAsDisabled(t: map<string, int>, key: string)
    requires ExtendsWithDefaults(t, Triggers)
    requires key !in Triggers
    ensures Index(t, key).value == Index(t, TriggerName(Disabled)).value == TriggerCode(Disabled)
  {
    IndexAnswersFromBase(t, Triggers, key);
    IndexAnswersFromBase(t, Triggers, TriggerName(Disabled));
  }
}
