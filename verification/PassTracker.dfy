/**
 * The pass tracker: the state machine, and every call of gpredict.c as a function on the
 * tracker and its delayable work item, given what the monotonic clock reads.
 */
module PassTracker {
  import opened Prelude

  const GRACE_MIN_MS := 250
  const GRACE_MAX_MS := 600000

  datatype State = Parked | Tracking | Holding | Parking | Fault

  datatype Event = BearingCame | Silence | ParkReached | ParkCommanded | Failure | Cleared

  datatype Bearing = Bearing(azimuth: int, elevation: int)

  /** What the build fixes, in degrees and milliseconds. */
  datatype Limits = Limits(parkAzimuth: int, parkElevation: int, azimuthMin: int, azimuthMax: int,
                           elevationMin: int, elevationMax: int, graceMs: u32)
  {
    /** The build assertions. */
    predicate Valid() {
      && azimuthMin < azimuthMax && elevationMin < elevationMax && 0 <= elevationMin
      && azimuthMin <= parkAzimuth <= azimuthMax && elevationMin <= parkElevation <= elevationMax
      && GRACE_MIN_MS <= graceMs <= GRACE_MAX_MS
    }

    /** within_travel */
    predicate Allows(b: Bearing) {
      && azimuthMin * 1000 <= b.azimuth <= azimuthMax * 1000
      && elevationMin * 1000 <= b.elevation <= elevationMax * 1000
    }

    function ParkPosition(): Bearing {
      Bearing(parkAzimuth * 1000, parkElevation * 1000)
    }
  }

  /** The static variables of gpredict.c. */
  datatype Status = Status(
    state: State,
    commanded: Bearing,
    actual: Bearing,
    frequency: u64,
    silence: u32,
    grace: u32,
    bearings: u32,
    refusals: u32,
    passesEnded: u32,
    faults: u32,
    lastError: Option<Errno>,
    lastBearing: nat,
    bearingSeen: bool,
    refusing: bool)

  /**
   * The work item. A deadline is a timer that is running; a queued item waits for the work
   * queue, a running one for the tracker lock. Each remembers the time it was due.
   */
  datatype Timer = Timer(deadline: Option<nat>, queued: Option<nat>, running: Option<nat>)

  datatype Tracker = Tracker(status: Status, timer: Timer)

  const IDLE := Timer(None, None, None)

  function Reset(l: Limits): Status {
    Status(Parked, Bearing(0, 0), Bearing(0, 0), 0, 0, l.graceMs, 0, 0, 0, 0, None, 0, false, false)
  }

  function PowerOn(l: Limits): Tracker {
    Tracker(Reset(l), IDLE)
  }

  /** kfsw_gpredict_next */
  function Next(state: State, event: Event): State {
    match (state, event)
    case (Fault, Cleared) => Parked
    case (Fault, _) => Fault
    case (_, Failure) => Fault
    case (_, ParkCommanded) => Parking
    case (Parked, BearingCame) => Tracking
    case (Parked, _) => Parked
    case (Tracking, Silence) => Holding
    case (Tracking, _) => Tracking
    case (Holding, BearingCame) => Tracking
    case (Holding, Silence) => Parking
    case (Holding, _) => Holding
    case (Parking, ParkReached) => Parked
    case (Parking, _) => Parking
  }

  /** count_up: lifetime counters saturate. */
  function CountUp(x: u32): u32 {
    if x < U32_MAX then x + 1 else x
  }

  predicate Live(s: Status) {
    s.state.Tracking? || s.state.Holding?
  }

  /** silence_now */
  function SilenceNow(s: Status, now: nat): u32 {
    var elapsed := if now > s.lastBearing then now - s.lastBearing else 0;
    if !s.bearingSeen then 0 else if elapsed > U32_MAX then U32_MAX else elapsed
  }

  /** apply_event */
  function ApplyEvent(l: Limits, s: Status, event: Event): Status {
    var next := Next(s.state, event);
    var there := if event.ParkReached? then s.(actual := l.ParkPosition()) else s;
    if next == s.state then there
    else
      var entered := if next.Fault?
                     then there.(state := next, faults := CountUp(s.faults), lastError := Some(EIO))
                     else there.(state := next);
      if s.state.Holding? && event.Silence? then entered.(passesEnded := CountUp(s.passesEnded)) else entered
  }

  /** k_work_reschedule: the timer is restarted; an item already queued or running stays so. */
  function Reschedule(t: Timer, now: nat, delay: nat): Timer {
    t.(deadline := Some(now + delay))
  }

  /** k_work_cancel_delayable: an item that is already running cannot be called back. */
  function Cancel(t: Timer): Timer {
    t.(deadline := None, queued := None)
  }

  /** refuse */
  function Refuse(s: Status, error: Errno): Status {
    s.(refusals := CountUp(s.refusals), lastError := Some(error), refusing := true)
  }

  /** kfsw_gpredict_bearing */
  function OfferBearing(l: Limits, t: Tracker, bearing: Option<Bearing>, now: nat): (Tracker, Outcome) {
    if bearing.None? then (t, Failed(EINVAL))
    else if t.status.state.Fault? then (t.(status := Refuse(t.status, EPERM)), Failed(EPERM))
    else if !l.Allows(bearing.value) then (t.(status := Refuse(t.status, EINVAL)), Failed(EINVAL))
    else
      var taken := t.status.(refusing := false, commanded := bearing.value, lastBearing := now, bearingSeen := true,
                             bearings := CountUp(t.status.bearings));
      (Tracker(ApplyEvent(l, taken, BearingCame), Reschedule(t.timer, now, t.status.grace)), Done)
  }

  /** kfsw_gpredict_frequency */
  function OfferFrequency(t: Tracker, hz: u64): (Tracker, Outcome) {
    if hz == 0 then (t.(status := t.status.(lastError := Some(EINVAL))), Failed(EINVAL))
    else (t.(status := t.status.(frequency := hz)), Done)
  }

  /** kfsw_gpredict_park */
  function CommandPark(l: Limits, t: Tracker): (Tracker, Outcome) {
    if t.status.state.Fault? then (t.(status := t.status.(lastError := Some(EPERM))), Failed(EPERM))
    else (t.(status := ApplyEvent(l, t.status, ParkCommanded)), Done)
  }

  /** kfsw_gpredict_clear */
  function ClearFault(l: Limits, t: Tracker): (Tracker, Outcome) {
    if !t.status.state.Fault? then (t, Failed(EALREADY))
    else (t.(status := ApplyEvent(l, t.status, Cleared)), Done)
  }

  /** What kfsw_gpredict_get_status copies out. */
  datatype Reading = Reading(state: State, commanded: Bearing, actual: Bearing, frequency: u64, silence: u32,
                             grace: u32, bearings: u32, refusals: u32, passesEnded: u32, faults: u32,
                             lastError: Option<Errno>)

  function ReadingOf(s: Status): Reading {
    Reading(s.state, s.commanded, s.actual, s.frequency, s.silence, s.grace, s.bearings, s.refusals, s.passesEnded,
            s.faults, s.lastError)
  }

  /** kfsw_gpredict_get_status: reading refreshes the silence. */
  function ReadStatus(t: Tracker, now: nat): Tracker {
    t.(status := t.status.(silence := SilenceNow(t.status, now)))
  }

  /** gpredict_grace_set */
  function SetGrace(t: Tracker, grace: u32, now: nat): Tracker {
    Tracker(t.status.(grace := grace),
            if Live(t.status) then Reschedule(t.timer, now, grace) else t.timer)
  }

  /** gpredict_silence_check */
  function CheckSilence(l: Limits, t: Tracker, now: nat): Tracker {
    var waited := SilenceNow(t.status, now);
    var s := if Live(t.status) && waited >= t.status.grace then ApplyEvent(l, t.status, Silence) else t.status;
    Tracker(s, if Live(s)
               then Reschedule(t.timer, now, if waited < s.grace then s.grace - waited else s.grace)
               else t.timer)
  }

  /** gpredict_apply_event, for the two reports of the rotator. */
  function Report(l: Limits, t: Tracker, event: Event): Tracker {
    t.(status := ApplyEvent(l, t.status, event))
  }

  /** gpredict_state_reset */
  function ResetState(l: Limits, t: Tracker): Tracker {
    Tracker(Reset(l), Cancel(t.timer))
  }

  /** Saturation of the silence never hides an expired grace, and never invents one. */
  lemma SaturationIsHarmless(s: Status, now: nat)
    requires s.bearingSeen
    ensures SilenceNow(s, now) >= s.grace <==> s.grace == 0 || now >= s.lastBearing + s.grace
  {
  }
}
