/**
 * The digital input object: its configuration, the two name tables, the
 * trigger state shared by the interrupt handler and the periodic task, and
 * the operations on them.  Clock readings (`millis()`, `getEpoch()`), the
 * HAL's answers and the parsed configuration document are parameters.
 */
module DigitalInput {
  import opened Wrappers
  import opened Word32
  import opened PinTables
  import opened TriggerModel

  /** Epochs below this are taken to mean "wall-clock time not yet set". */
  const MinValidEpoch: ULong := 10000

  /** How many times begin() samples the epoch at most while waiting for it. */
  const MaxSyncAttempts: nat := 10

  /** `digital_config`. */
  datatype DigitalConfig = DigitalConfig(pin: int, mode: string, trigger: string, id: int, taskEnabled: bool)

  /** A document entry with the current choice and the list of allowed ones. */
  datatype Choice = Choice(current: string, options: seq<string>)

  /** The fields of the configuration document getConfig produces. */
  datatype ConfigDoc = ConfigDoc(
    pin: int, mode: Choice, trigger: Choice, id: int,
    taskName: string, taskPeriod: int, taskEnabled: bool)

  /** The values setConfig reads out of a successfully parsed document. */
  datatype ParsedConfig = ParsedConfig(
    pin: int, mode: string, trigger: string, id: int,
    taskEnabled: bool, taskName: string, taskPeriod: int)
  {
    function Digital(): DigitalConfig {
      DigitalConfig(pin, mode, trigger, id, taskEnabled)
    }
  }

  /** The values setConfig reads back from the entries of a document. */
  function Decode(doc: ConfigDoc): ParsedConfig {
    ParsedConfig(doc.pin, doc.mode.current, doc.trigger.current, doc.id,
                 doc.taskEnabled, doc.taskName, doc.taskPeriod)
  }

  /** The HAL calls configureInput makes: pinMode(pin, modeCode) and, when the pin has an interrupt, attachInterrupt. */
  datatype PinSetup = PinSetup(pin: int, modeCode: int, interruptCode: Option<int>)

  /**
   * How many times begin()'s do-while loop runs when the k-th getEpoch()
   * call returns `epochAt(k)`: it stops after the first call that sees a
   * valid epoch, or after MaxSyncAttempts rounds.
   */
  function SyncAttempts(epochAt: nat -> ULong): (t: nat)
    ensures 1 <= t <= MaxSyncAttempts
    ensures forall i :: 0 <= i < t - 1 ==> epochAt(i) < MinValidEpoch
    ensures t < MaxSyncAttempts ==> epochAt(t - 1) >= MinValidEpoch
  {
    AttemptsFrom(epochAt, 1)
  }

  /** SyncAttempts, once `t` rounds have been made without seeing a valid epoch before the last one. */
  function AttemptsFrom(epochAt: nat -> ULong, t: nat): (r: nat)
    requires 1 <= t <= MaxSyncAttempts
    requires forall i :: 0 <= i < t - 1 ==> epochAt(i) < MinValidEpoch
    ensures t <= r <= MaxSyncAttempts
    ensures forall i :: 0 <= i < r - 1 ==> epochAt(i) < MinValidEpoch
    ensures r < MaxSyncAttempts ==> epochAt(r - 1) >= MinValidEpoch
    decreases MaxSyncAttempts - t
  {
    if epochAt(t - 1) < MinValidEpoch && t < MaxSyncAttempts then AttemptsFrom(epochAt, t + 1) else t
  }

  /** The three properties of SyncAttempts determine it. */
  lemma SyncAttemptsUnique(epochAt: nat -> ULong, t: nat)
    requires 1 <= t <= MaxSyncAttempts
    requires forall i :: 0 <= i < t - 1 ==> epochAt(i) < MinValidEpoch
    requires t < MaxSyncAttempts ==> epochAt(t - 1) >= MinValidEpoch
    ensures SyncAttempts(epochAt) == t
  {
  }

  /** A clock that is already set: begin() samples once and succeeds if it is still set when checked. */
  lemma SyncedClockNeedsOneAttempt(epochAt: nat -> ULong)
    requires epochAt(0) >= MinValidEpoch
    ensures SyncAttempts(epochAt) == 1
  {
    SyncAttemptsUnique(epochAt, 1);
  }

  /** A clock stuck below the threshold: begin() uses all ten samples, and its final check fails. */
  lemma StuckClockExhaustsAttempts(epochAt: nat -> ULong)
    requires forall i :: 0 <= i <= MaxSyncAttempts ==> epochAt(i) < MinValidEpoch
    ensures SyncAttempts(epochAt) == MaxSyncAttempts
    ensures epochAt(SyncAttempts(epochAt)) < MinValidEpoch
  {
    SyncAttemptsUnique(epochAt, MaxSyncAttempts);
  }

  class DigitalInputTrigger {
    var config: DigitalConfig
    /** task_config.taskName and task_config.taskPeriod, owned by the periodic-task framework. */
    var taskName: string
    var taskPeriod: int
    /** The name tables; operator[] lookups add missing names to them. */
    var modes: map<string, int>
    var triggers: map<string, int>
    var triggered: bool
    var elapsedMillis: ULong
    var currentMillis: ULong
    var lastRunTime: ULong

    /** The tables answer every lookup as the tables of the constructor, with 0 for unknown names. */
    ghost predicate Valid()
      reads this`modes, this`triggers
    {
      ExtendsWithDefaults(modes, Modes) && ExtendsWithDefaults(triggers, Triggers)
    }

    /** The trigger state as a value. */
    function State(): TriggerState
      reads this`triggered, this`elapsedMillis, this`currentMillis, this`lastRunTime
    {
      TriggerState(triggered, elapsedMillis, currentMillis, lastRunTime)
    }

    /**
     * `id` is the value the constructor leaves in the id field, which it does
     * not initialise; `taskName` and `taskPeriod` are whatever the
     * periodic-task framework starts with.
     */
    constructor (pin: int, id: int, taskName: string, taskPeriod: int)
      ensures Valid() && modes == Modes && triggers == Triggers
      ensures State() == Initial
      ensures config == DigitalConfig(pin, "", "", id, false)
      ensures this.taskName == taskName && this.taskPeriod == taskPeriod
    {
      config := DigitalConfig(pin, "", "", id, false);
      this.taskName := taskName;
      this.taskPeriod := taskPeriod;
      modes := Modes;
      triggers := Triggers;
      triggered := false;
      elapsedMillis := 0;
      currentMillis := 0;
      lastRunTime := 0;
    }

    /**
     * begin(): samples the epoch once per round, after a one-second delay,
     * until it is valid or MaxSyncAttempts rounds are done; then checks it
     * once more and, if valid, clears the trigger state with the millis()
     * reading `now` and the next epoch reading.  The k-th call of
     * getEpoch() returns `epochAt(k)`.
     */
    method Begin(epochAt: nat -> ULong, now: ULong) returns (ok: bool)
      modifies this`currentMillis, this`lastRunTime, this`triggered
      ensures ok <==> epochAt(SyncAttempts(epochAt)) >= MinValidEpoch
      ensures ok ==> State() == Clear(old(State()), now, epochAt(SyncAttempts(epochAt) + 1))
      ensures !ok ==> State() == old(State())
    {
      ghost var rounds := SyncAttempts(epochAt);
      var timeout := 0;
      var calls: nat := 0;
      while true
        invariant 0 <= timeout < rounds
        invariant calls == timeout
        decreases MaxSyncAttempts - timeout
      {
        timeout := timeout + 1;
        var epoch := epochAt(calls);
        calls := calls + 1;
        if !(epoch < MinValidEpoch && timeout < MaxSyncAttempts) {
          SyncAttemptsUnique(epochAt, timeout);
          break;
        }
      }
      assert calls == rounds;
      var epoch := epochAt(calls);
      calls := calls + 1;
      if epoch < MinValidEpoch {
        return false;
      }
      ClearTrigger(now, epochAt(calls));
      return true;
    }

    /** getConfig(): the document whose entries read back as the current configuration. */
    function GetConfig(): (doc: ConfigDoc)
      reads this`config, this`taskName, this`taskPeriod
      ensures Decode(doc).Digital() == config
      ensures Decode(doc).taskName == taskName && Decode(doc).taskPeriod == taskPeriod
      ensures doc.mode.options == ModeOptions && doc.trigger.options == TriggerOptions
    {
      ConfigDoc(config.pin, Choice(config.mode, ModeOptions), Choice(config.trigger, TriggerOptions),
                config.id, taskName, taskPeriod, config.taskEnabled)
    }

    /**
     * setConfig(): `parsed` is None when the document does not parse.
     * Otherwise every field is assigned, the pin is configured (`irq` is
     * what digitalPinToInterrupt answers for the new pin) and, if that
     * succeeds, enableTask(taskEnabled) is called, answering `enableOk`.
     * `setup` is the pin configuration made, `enable` the argument passed
     * to enableTask.  Fields stay assigned when the pin cannot be armed.
     */
    method SetConfig(parsed: Option<ParsedConfig>, irq: int, enableOk: bool)
      returns (ok: bool, setup: Option<PinSetup>, enable: Option<bool>)
      requires Valid()
      modifies this`config, this`taskName, this`taskPeriod, this`modes, this`triggers
      ensures Valid()
      ensures parsed.None? ==> !ok && setup == None && enable == None
      ensures parsed.None? ==> unchanged(this`config, this`taskName, this`taskPeriod, this`modes, this`triggers)
      ensures parsed.Some? ==> config == parsed.value.Digital()
      ensures parsed.Some? ==> taskName == parsed.value.taskName && taskPeriod == parsed.value.taskPeriod
      ensures parsed.Some? ==> setup.Some? && setup.value.pin == parsed.value.pin
      ensures parsed.Some? ==>
                setup.value.modeCode == (if parsed.value.mode in Modes then Modes[parsed.value.mode] else 0)
      ensures parsed.Some? ==>
                setup.value.interruptCode ==
                  if irq != -1 then Some(if parsed.value.trigger in Triggers then Triggers[parsed.value.trigger] else 0)
                  else None
      ensures parsed.Some? ==> modes == Index(old(modes), parsed.value.mode).table
      ensures parsed.Some? ==>
                triggers == if irq != -1 then Index(old(triggers), parsed.value.trigger).table else old(triggers)
      ensures parsed.Some? ==> (enable.Some? <==> irq != -1)
      ensures enable.Some? ==> enable.value == config.taskEnabled
      ensures ok <==> parsed.Some? && irq != -1 && enableOk
    {
      if parsed.None? {
        return false, None, None;
      }
      var p := parsed.value;
      config := p.Digital();
      taskName := p.taskName;
      taskPeriod := p.taskPeriod;
      var armed, s := ConfigureInput(irq);
      if armed {
        return enableOk, Some(s), Some(config.taskEnabled);
      }
      return false, Some(s), None;
    }

    /**
     * configureInput(): sets the pin mode looked up in `modes` and, when the
     * pin has an interrupt (`irq` != -1), attaches Trigger with the mode
     * looked up in `triggers`.  Unknown names are not rejected: they read
     * as 0 and are added to the table.
     */
    method ConfigureInput(irq: int) returns (ok: bool, setup: PinSetup)
      requires Valid()
      modifies this`modes, this`triggers
      ensures Valid()
      ensures ok <==> irq != -1
      ensures setup.pin == config.pin
      ensures setup.modeCode == (if config.mode in Modes then Modes[config.mode] else 0)
      ensures setup.interruptCode ==
                if ok then Some(if config.trigger in Triggers then Triggers[config.trigger] else 0) else None
      ensures modes == Index(old(modes), config.mode).table
      ensures triggers == if ok then Index(old(triggers), config.trigger).table else old(triggers)
    {
      IndexAnswersFromBase(modes, Modes, config.mode);
      var m := Index(modes, config.mode);
      modes := m.table;
      if irq == -1 {
        return false, PinSetup(config.pin, m.value, None);
      }
      IndexAnswersFromBase(triggers, Triggers, config.trigger);
      var t := Index(triggers, config.trigger);
      triggers := t.table;
      return true, PinSetup(config.pin, m.value, Some(t.value));
    }

    /**
     * runTask(elapsed): once the task period is over, reports a pending
     * edge as (id, seconds, ms) and clears the state with the clock
     * readings `now` and `epoch`; otherwise changes nothing.
     */
    method RunTask(elapsed: int, now: ULong, epoch: ULong) returns (report: Option<Report>)
      modifies this`currentMillis, this`lastRunTime, this`triggered
      ensures Polled(State(), report) == Poll(old(State()), config.id, taskPeriod, elapsed, now, epoch)
      ensures elapsed < taskPeriod ==> report == None && State() == old(State())
      ensures !old(triggered) ==> report == None && State() == old(State())
    {
      report := None;
      if elapsed >= taskPeriod {
        if triggered {
          var time := Add(lastRunTime, elapsedMillis / 1000);
          report := Some(Report(config.id, time, elapsedMillis % 1000));
          ClearTrigger(now, epoch);
        }
      }
    }

    /** clearTrigger(): a new baseline of `now` ms and `epoch` s, and no pending edge. */
    method ClearTrigger(now: ULong, epoch: ULong)
      modifies this`currentMillis, this`lastRunTime, this`triggered
      ensures currentMillis == now && lastRunTime == epoch && !triggered
      ensures State() == Clear(old(State()), now, epoch)
    {
      currentMillis := now;
      lastRunTime := epoch;
      triggered := false;
    }

    /** trigger(), the interrupt handler: claims the edge only if none is pending. */
    method Trigger(now: ULong)
      modifies this`triggered, this`elapsedMillis
      ensures triggered
      ensures old(triggered) ==> elapsedMillis == old(elapsedMillis)
      ensures !old(triggered) ==> elapsedMillis == Sub(now, currentMillis)
      ensures State() == Claim(old(State()), now)
    {
      if !triggered {
        triggered := true;
        elapsedMillis := Sub(now, currentMillis);
      }
    }
  }
}
