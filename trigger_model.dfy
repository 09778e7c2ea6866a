/**
 * The trigger/clear/report state machine of the digital input, on values.
 * `Claim` is the interrupt handler, `Clear` resets the baseline, `Poll` is
 * one call of the periodic task.  An interleaving of the interrupt handler
 * and the task is a sequence of `Event`s, each applied atomically by `Run`.
 * The class in module DigitalInput updates its fields exactly as these
 * functions say.
 */
module TriggerModel {
  import opened Wrappers
  import opened Word32

  /** The four fields the handler and the task share. */
  datatype TriggerState = TriggerState(
    triggered: bool,        // an edge has been claimed and not yet reported
    elapsedMillis: ULong,   // ms from the last clear to the claimed edge
    currentMillis: ULong,   // millis() at the last clear
    lastRunTime: ULong)     // epoch seconds at the last clear

  /** One logged event: the configured id, the event's epoch second and its millisecond part. */
  datatype Report = Report(id: int, seconds: ULong, millis: ULong)

  /** What a runTask call leaves behind. */
  datatype Polled = Polled(state: TriggerState, report: Option<Report>)

  /** The field values of a newly constructed object. */
  const Initial: TriggerState := TriggerState(false, 0, 0, 0)

  /** trigger(): claims the edge only when none is pending, timing it from the last clear. */
  function Claim(s: TriggerState, now: ULong): (r: TriggerState)
    ensures r.triggered
    ensures s.triggered ==> r == s
    ensures !s.triggered ==> (s.currentMillis as int + r.elapsedMillis as int) % Modulus == now as int
    ensures r.currentMillis == s.currentMillis && r.lastRunTime == s.lastRunTime
  {
    if !s.triggered then s.(triggered := true, elapsedMillis := Sub(now, s.currentMillis)) else s
  }

  /** clearTrigger(): a new baseline of `now` ms and `epoch` s, and no pending edge. */
  function Clear(s: TriggerState, now: ULong, epoch: ULong): (r: TriggerState)
    ensures !r.triggered && r.currentMillis == now && r.lastRunTime == epoch
    ensures r.elapsedMillis == s.elapsedMillis
  {
    s.(currentMillis := now, lastRunTime := epoch, triggered := false)
  }

  /**
   * The report for a pending edge: the whole seconds of the edge's delay are
   * added to the baseline epoch, the rest is the millisecond part.
   */
  function ReportOf(id: int, s: TriggerState): (r: Report)
    ensures r.id == id
    ensures r.millis < 1000
    ensures s.lastRunTime as int + s.elapsedMillis as int / 1000 < Modulus ==>
              (r.seconds as int - s.lastRunTime as int) * 1000 + r.millis as int == s.elapsedMillis as int
    ensures s.lastRunTime as int + s.elapsedMillis as int / 1000 >= Modulus ==>
              r.seconds as int < s.lastRunTime as int
  {
    Report(id, Add(s.lastRunTime, s.elapsedMillis / 1000), s.elapsedMillis % 1000)
  }

  /**
   * runTask(elapsed): nothing happens before the period is over or when no
   * edge is pending; otherwise the pending edge is reported and the state
   * cleared with the clock readings `now` and `epoch`.
   */
  function Poll(s: TriggerState, id: int, period: int, elapsed: int, now: ULong, epoch: ULong): (r: Polled)
    ensures r.report.Some? <==> elapsed >= period && s.triggered
    ensures r.report.None? ==> r.state == s
    ensures r.report.Some? ==> r.report.value == ReportOf(id, s) && !r.state.triggered
    ensures r.report.Some? ==> r.state.currentMillis == now && r.state.lastRunTime == epoch
  {
    if elapsed >= period && s.triggered then Polled(Clear(s, now, epoch), Some(ReportOf(id, s)))
    else Polled(s, None)
  }

  /** Further interrupts after a claimed one change nothing. */
  lemma ClaimIdempotent(s: TriggerState, first: ULong, later: ULong)
    ensures Claim(Claim(s, first), later) == Claim(s, first)
    ensures Claim(s, first).triggered
  {
  }

  /** After a clear the next interrupt is always claimed, timed from the new baseline. */
  lemma ClaimAfterClear(s: TriggerState, now: ULong, epoch: ULong, at: ULong)
    ensures Claim(Clear(s, now, epoch), at) ==
            TriggerState(true, Sub(at, now), now, epoch)
  {
  }

  /** The delay recorded by a claim is the true delay since the clear iff that delay is below 2^32 ms. */
  lemma ClaimMeasuresDelay(s: TriggerState, d: nat)
    requires !s.triggered
    ensures Claim(s, Advance(s.currentMillis, d)).elapsedMillis as int == d <==> d < Modulus
  {
    SubMeasuresDelay(s.currentMillis, d);
  }

  /** A clear 1,700,000,000 s / 5,000 ms and an edge at 6,234 ms are reported as 1,700,000,001 s and 234 ms. */
  lemma ReportExample(id: int)
    ensures var s := Claim(Clear(Initial, 5000, 1700000000), 6234);
            Poll(s, id, 0, 0, 0, 0).report == Some(Report(id, 1700000001, 234))
  {
  }

  // ----- Interleavings ---------------------------------------------------------

  /** One atomic step: an interrupt at millis() `at`, or a runTask call with its clock readings. */
  datatype Event =
    | Interrupt(at: ULong)
    | Tick(elapsed: int, at: ULong, epoch: ULong)

  /** The state and the reports, in order, after a run of events. */
  datatype Trace = Trace(state: TriggerState, reports: seq<Report>)

  /** One event applied atomically; only a runTask call after the period, with an edge pending, reports. */
  function Step(s: TriggerState, id: int, period: int, e: Event): (r: Polled)
    ensures Quiet(e, period) ==> r.report.None?
    ensures r.report.Some? ==> s.triggered && !r.state.triggered && r.report.value == ReportOf(id, s)
    ensures e.Interrupt? ==> r.state.triggered
  {
    match e
    case Interrupt(at) => Polled(Claim(s, at), None)
    case Tick(elapsed, at, epoch) => Poll(s, id, period, elapsed, at, epoch)
  }

  /** The events applied one after another; every report carries the id and a millisecond part below 1000. */
  function Run(s: TriggerState, id: int, period: int, evs: seq<Event>): (t: Trace)
    ensures |t.reports| <= |evs|
    ensures forall i :: 0 <= i < |t.reports| ==> t.reports[i].id == id && t.reports[i].millis < 1000
    decreases |evs|
  {
    if evs == [] then Trace(s, [])
    else
      var p := Step(s, id, period, evs[0]);
      var t := Run(p.state, id, period, evs[1..]);
      Trace(t.state, ToSeq(p.report) + t.reports)
  }

  /** An event that cannot produce a report: an interrupt, or a runTask call before the period is over. */
  predicate Quiet(e: Event, period: int) {
    e.Interrupt? || e.elapsed < period
  }

  function CountInterrupts(evs: seq<Event>): nat {
    if evs == [] then 0 else (if evs[0].Interrupt? then 1 else 0) + CountInterrupts(evs[1..])
  }

  /** Running `a` then `b` is running `a + b`. */
  lemma {:induction false} RunAppend(s: TriggerState, id: int, period: int, a: seq<Event>, b: seq<Event>)
    ensures var ta := Run(s, id, period, a);
            var tb := Run(ta.state, id, period, b);
            Run(s, id, period, a + b) == Trace(tb.state, ta.reports + tb.reports)
    decreases |a|
  {
    if a == [] {
      assert a + b == b;
    } else {
      assert (a + b)[0] == a[0];
      assert (a + b)[1..] == a[1..] + b;
      var p := Step(s, id, period, a[0]);
      RunAppend(p.state, id, period, a[1..], b);
    }
  }

  /** While an edge is pending, quiet events neither report nor change anything. */
  lemma {:induction false} PendingSurvivesQuiet(s: TriggerState, id: int, period: int, evs: seq<Event>)
    requires s.triggered
    requires forall i :: 0 <= i < |evs| ==> Quiet(evs[i], period)
    ensures Run(s, id, period, evs) == Trace(s, [])
    decreases |evs|
  {
    if evs != [] {
      assert Quiet(evs[0], period);
      PendingSurvivesQuiet(s, id, period, evs[1..]);
    }
  }

  /**
   * Coalescing: from a state with no pending edge, a burst of events that
   * starts with an interrupt and cannot report, closed by a runTask call
   * whose period is over, produces exactly one report, timed at the FIRST
   * interrupt of the burst, and leaves the state cleared.
   */
  lemma CoalescedBurstReportsOnce(s: TriggerState, id: int, period: int, burst: seq<Event>,
                                  elapsed: int, now: ULong, epoch: ULong)
    requires !s.triggered
    requires |burst| >= 1 && burst[0].Interrupt?
    requires forall i :: 0 <= i < |burst| ==> Quiet(burst[i], period)
    requires elapsed >= period
    ensures var d := Sub(burst[0].at, s.currentMillis);
            var t := Run(s, id, period, burst + [Tick(elapsed, now, epoch)]);
            && t.reports == [Report(id, Add(s.lastRunTime, d / 1000), d % 1000)]
            && t.state == TriggerState(false, d, now, epoch)
  {
    var claimed := Claim(s, burst[0].at);
    var rest := burst[1..];
    forall i | 0 <= i < |rest| ensures Quiet(rest[i], period) {
      assert rest[i] == burst[i + 1];
    }
    PendingSurvivesQuiet(claimed, id, period, rest);
    assert Run(s, id, period, burst) == Trace(claimed, []);
    RunAppend(s, id, period, burst, [Tick(elapsed, now, epoch)]);
  }

  /** No run reports more edges than it has interrupts, plus one for an edge already pending. */
  lemma {:induction false} ReportsBoundedByInterrupts(s: TriggerState, id: int, period: int, evs: seq<Event>)
    ensures |Run(s, id, period, evs).reports| <= CountInterrupts(evs) + (if s.triggered then 1 else 0)
    decreases |evs|
  {
    if evs != [] {
      var p := Step(s, id, period, evs[0]);
      ReportsBoundedByInterrupts(p.state, id, period, evs[1..]);
    }
  }
}
