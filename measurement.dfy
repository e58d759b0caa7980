/**
 * The label overlay and the duration state machine of one invocation:
 * a non-empty measurement mode is written into the labels, "start" stores
 * the current time in the persisted timer slot, and "finish" turns a stored
 * time into a `duration` label of whole seconds.
 */
module Measurement {
  import opened Wrappers
  import opened Decimal

  const MeasurementKey: string := "measurement"
  const DurationKey: string := "duration"
  const StartMode: string := "start"
  const FinishMode: string := "finish"

  /**
   * `Math.round(elapsedMs / 1000)` for a whole number of milliseconds: the
   * nearest whole number of seconds, a tie going up.
   */
  function RoundedSeconds(elapsedMs: int): (r: int)
    ensures 1000 * r - 500 <= elapsedMs < 1000 * r + 500
  {
    (elapsedMs + 500) / 1000
  }

  /** The rounding is the only whole number within half a second of the elapsed time. */
  lemma RoundedSecondsUnique(elapsedMs: int, q: int)
    requires 1000 * q - 500 <= elapsedMs < 1000 * q + 500
    ensures q == RoundedSeconds(elapsedMs)
  {
    var r := RoundedSeconds(elapsedMs);
    assert 1000 * r - 500 <= elapsedMs < 1000 * r + 500;
  }

  /** Whether a run measured with `measurement` against `timer` adds a duration label. */
  predicate AddsDuration(measurement: string, timer: Option<int>) {
    measurement == FinishMode && timer.Some?
  }

  /** The label keys the overlay writes. */
  function OverlayKeys(measurement: string, timer: Option<int>): set<string> {
    (if measurement != "" then {MeasurementKey} else {})
    + (if AddsDuration(measurement, timer) then {DurationKey} else {})
  }

  /** Labels and timer slot after the overlay. */
  datatype Tracked = Tracked(labels: map<string, string>, timer: Option<int>)

  /**
   * The labels and the timer slot after the measurement step, given the
   * parsed labels, the mode, the clock reading `now` (epoch milliseconds)
   * and the slot as it was.
   */
  function Track(labels: map<string, string>, measurement: string, now: int, timer: Option<int>): (r: Tracked)
    ensures r.labels.Keys == labels.Keys + OverlayKeys(measurement, timer)
    ensures forall k :: k in labels && k !in OverlayKeys(measurement, timer) ==> r.labels[k] == labels[k]
    ensures measurement != "" ==> r.labels[MeasurementKey] == measurement
    ensures AddsDuration(measurement, timer) ==>
      r.labels[DurationKey] == IntToDec(RoundedSeconds(now - timer.value))
    ensures measurement == StartMode ==> r.timer == Some(now)
    ensures measurement != StartMode ==> r.timer == timer
  {
    var marked := if measurement != "" then labels[MeasurementKey := measurement] else labels;
    if measurement == StartMode then
      Tracked(marked, Some(now))
    else if AddsDuration(measurement, timer) then
      Tracked(marked[DurationKey := IntToDec(RoundedSeconds(now - timer.value))], timer)
    else
      Tracked(marked, timer)
  }

  /** The duration label reads back as the rounded number of elapsed seconds. */
  lemma DurationLabelValue(labels: map<string, string>, now: int, start: int)
    ensures var r := Track(labels, FinishMode, now, Some(start));
      DurationKey in r.labels
      && DecToInt(r.labels[DurationKey]) == Some(RoundedSeconds(now - start))
  {
    IntToDecRoundTrip(RoundedSeconds(now - start));
  }

  /**
   * A "start" at `t0` followed by a "finish" at `t1` yields the duration
   * `round((t1 - t0) / 1000)`, whatever the slot held before and whatever
   * labels either run had.
   */
  lemma StartThenFinish(labels0: map<string, string>, labels1: map<string, string>, t0: int, t1: int, timer: Option<int>)
    ensures var started := Track(labels0, StartMode, t0, timer);
      var finished := Track(labels1, FinishMode, t1, started.timer);
      && finished.labels[DurationKey] == IntToDec(RoundedSeconds(t1 - t0))
      && finished.timer == Some(t0)
  {
  }

  /** A second "start" overwrites the first: the last writer wins. */
  lemma LastStartWins(labels0: map<string, string>, labels1: map<string, string>, t0: int, t1: int, timer: Option<int>)
    ensures Track(labels1, StartMode, t1, Track(labels0, StartMode, t0, timer).timer).timer == Some(t1)
  {
  }

  /** A "finish" does not consume the slot: a second "finish" measures from the same start. */
  lemma FinishKeepsStart(labels0: map<string, string>, labels1: map<string, string>, t1: int, t2: int, start: int)
    ensures var first := Track(labels0, FinishMode, t1, Some(start));
      var second := Track(labels1, FinishMode, t2, first.timer);
      second.labels[DurationKey] == IntToDec(RoundedSeconds(t2 - start))
  {
  }

  /** Without a stored start, or in any mode but "finish", no duration label is written. */
  lemma NoDurationWithoutTimer(labels: map<string, string>, measurement: string, now: int, timer: Option<int>)
    requires measurement != FinishMode || timer.None?
    ensures var r := Track(labels, measurement, now, timer);
      && (DurationKey in r.labels <==> DurationKey in labels)
      && (DurationKey in labels ==> r.labels[DurationKey] == labels[DurationKey])
  {
  }

  /**
   * The persisted timer slot of the workflow run's workspace. It outlives a
   * single invocation: one run writes it, a later run reads it.
   */
  class TimerStore {
    var slot: Option<int>

    constructor (initial: Option<int>)
      ensures slot == initial
    {
      slot := initial;
    }

    /**
     * The measurement step of one invocation: returns `labels` with the
     * overlay applied and updates the slot on "start".
     */
    method Measure(labels: map<string, string>, measurement: string, now: int) returns (updated: map<string, string>)
      modifies this
      ensures Tracked(updated, slot) == Track(labels, measurement, now, old(slot))
    {
      updated := labels;
      if measurement != "" {
        updated := updated[MeasurementKey := measurement];
      }
      if measurement == StartMode {
        slot := Some(now);
      } else if measurement == FinishMode && slot.Some? {
        var startTime := slot.value;
        var executionDuration := RoundedSeconds(now - startTime);
        updated := updated[DurationKey := IntToDec(executionDuration)];
      }
    }
  }

  /**
   * Two invocations sharing one fresh store: the first marks "start" at
   * `t0`, the second "finish" at `t1`; the second carries the duration.
   */
  method StartAndFinish(labels0: map<string, string>, labels1: map<string, string>, t0: int, t1: int)
    returns (duration: string)
    ensures DecToInt(duration) == Some(RoundedSeconds(t1 - t0))
  {
    var store := new TimerStore(None);
    var first := store.Measure(labels0, StartMode, t0);
    var second := store.Measure(labels1, FinishMode, t1);
    duration := second[DurationKey];
    IntToDecRoundTrip(RoundedSeconds(t1 - t0));
  }
}
