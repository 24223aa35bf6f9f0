/** The tracker's counters and its commanded position, against the history of the run. */
module PassHistory {
  import opened Prelude
  import opened PassTracker
  import opened PassTiming

  /** What happened since the last reset. */
  datatype Tally = Tally(
    taken: nat,
    refused: nat,
    ended: nat,
    failed: nat,
    position: Option<Bearing>,     // the last bearing taken
    heard: nat,                    // and when
    refusing: bool,                // the last bearing decided on was refused
    frequency: u64,                // the last frequency taken
    arrived: bool,                 // the rotator reported the park reached
    silence: nat,                  // the age of the last bearing at the last reading
    lastError: Option<Errno>)

  function NoTally(): Tally {
    Tally(0, 0, 0, 0, None, 0, false, 0, false, 0, None)
  }

  /** The age of the last bearing. */
  function Age(tally: Tally, now: nat): nat {
    if tally.position.Some? && now > tally.heard then now - tally.heard else 0
  }

  function Fails(tally: Tally, before: World): Tally {
    if before.tracker.status.state.Fault? then tally
    else tally.(failed := tally.failed + 1, lastError := Some(EIO))
  }

  /** One act, told by what was offered and by the state it found. */
  function Counted(l: Limits, tally: Tally, before: World, a: Act, after: World): Tally {
    var fault := before.tracker.status.state.Fault?;
    match a
    case ResetAll => NoTally()
    case Offer(Some(bearing)) =>
      if Takes(l, before, a)
      then tally.(taken := tally.taken + 1, position := Some(bearing), heard := before.now, refusing := false)
      else tally.(refused := tally.refused + 1, refusing := true, lastError := Some(if fault then EPERM else EINVAL))
    case RefuseForProfile(error) => tally.(refused := tally.refused + 1, refusing := true, lastError := Some(error))
    case Frequency(hz) => if hz == 0 then tally.(lastError := Some(EINVAL)) else tally.(frequency := hz)
    case Park => if fault then tally.(lastError := Some(EPERM)) else tally
    case Read => tally.(silence := Age(tally, before.now))
    case RotatorReports(ParkReached) => tally.(arrived := true)
    case RotatorReports(Failure) => Fails(tally, before)
    case Finish =>
      if before.tracker.status.state.Holding? && after.tracker.status.state.Parking?
      then tally.(ended := tally.ended + 1) else tally
    case _ => tally
  }

  /** The tally of the first `i` acts. */
  function TallyAt(l: Limits, run: seq<World>, acts: seq<Act>, i: nat): Tally
    requires i <= |acts| < |run|
  {
    if i == 0 then NoTally()
    else Counted(l, TallyAt(l, run, acts, i - 1), run[i - 1], acts[i - 1], run[i])
  }

  function Capped(n: nat): u32 {
    if n < U32_MAX then n else U32_MAX
  }

  /** Everything the tracker shows but its state and its grace is what the tally gives. */
  predicate Agrees(l: Limits, s: Status, tally: Tally) {
    && s.bearings == Capped(tally.taken) && s.refusals == Capped(tally.refused)
    && s.passesEnded == Capped(tally.ended) && s.faults == Capped(tally.failed)
    && s.bearingSeen == tally.position.Some?
    && s.commanded == (if tally.position.Some? then tally.position.value else Bearing(0, 0))
    && s.lastBearing == tally.heard && s.refusing == tally.refusing
    && s.frequency == tally.frequency && s.silence == Capped(tally.silence) && s.lastError == tally.lastError
    && s.actual == (if tally.arrived then Bearing(l.parkAzimuth * 1000, l.parkElevation * 1000) else Bearing(0, 0))
  }

  lemma OfferAgrees(l: Limits, w: World, a: Act, tally: Tally)
    requires (a.Offer? || a.RefuseForProfile?) && Agrees(l, w.tracker.status, tally)
    ensures Agrees(l, Acted(l, w, a).tracker.status, Counted(l, tally, w, a, Acted(l, w, a)))
  {
  }

  /** The handler changes nothing but the state, and counts the pass it ends. */
  lemma FinishChanges(l: Limits, w: World)
    ensures
      var s, s' := w.tracker.status, Acted(l, w, Finish).tracker.status;
      s' == s.(state := s'.state,
               passesEnded := if s.state.Holding? && s'.state.Parking? then CountUp(s.passesEnded) else s.passesEnded)
  {
  }

  lemma FinishAgrees(l: Limits, w: World, tally: Tally)
    requires Agrees(l, w.tracker.status, tally)
    ensures Agrees(l, Acted(l, w, Finish).tracker.status, Counted(l, tally, w, Finish, Acted(l, w, Finish)))
  {
    FinishChanges(l, w);
  }

  lemma ParkChanges(l: Limits, w: World)
    ensures
      var s := w.tracker.status;
      Acted(l, w, Park).tracker.status ==
      if s.state.Fault? then s.(lastError := Some(EPERM)) else s.(state := Parking)
  {
  }

  lemma ParkAgrees(l: Limits, w: World, tally: Tally)
    requires Agrees(l, w.tracker.status, tally)
    ensures Agrees(l, Acted(l, w, Park).tracker.status, Counted(l, tally, w, Park, Acted(l, w, Park)))
  {
    ParkChanges(l, w);
  }

  lemma ClearAgrees(l: Limits, w: World, tally: Tally)
    requires Agrees(l, w.tracker.status, tally)
    ensures Agrees(l, Acted(l, w, Clear).tracker.status, Counted(l, tally, w, Clear, Acted(l, w, Clear)))
  {
  }

  lemma ReportAgrees(l: Limits, w: World, event: Event, tally: Tally)
    requires (event.ParkReached? || event.Failure?) && Agrees(l, w.tracker.status, tally)
    ensures
      var a := RotatorReports(event);
      Agrees(l, Acted(l, w, a).tracker.status, Counted(l, tally, w, a, Acted(l, w, a)))
  {
  }

  /** What the settings and the clock change in the status. */
  lemma SettingChanges(l: Limits, w: World, a: Act)
    requires a.Frequency? || a.Grace? || a.Tick? || a.Fire? || a.Start?
    ensures
      var s := w.tracker.status;
      Acted(l, w, a).tracker.status ==
      if a.Grace? then s.(grace := a.length)
      else if a.Frequency? then if a.hz == 0 then s.(lastError := Some(EINVAL)) else s.(frequency := a.hz)
      else s
  {
  }

  lemma SettingAgrees(l: Limits, w: World, a: Act, tally: Tally)
    requires a.Frequency? || a.Grace? || a.Tick? || a.Fire? || a.Start?
    requires Agrees(l, w.tracker.status, tally)
    ensures Agrees(l, Acted(l, w, a).tracker.status, Counted(l, tally, w, a, Acted(l, w, a)))
  {
    SettingChanges(l, w, a);
  }

  lemma ReadAgrees(l: Limits, w: World, tally: Tally)
    requires Agrees(l, w.tracker.status, tally)
    ensures Agrees(l, Acted(l, w, Read).tracker.status, Counted(l, tally, w, Read, Acted(l, w, Read)))
  {
  }

  lemma ActAgrees(l: Limits, late: nat, w: World, a: Act, tally: Tally)
    requires Enabled(late, w, a) && Agrees(l, w.tracker.status, tally)
    ensures Agrees(l, Acted(l, w, a).tracker.status, Counted(l, tally, w, a, Acted(l, w, a)))
  {
    match a
    case Offer(_) => OfferAgrees(l, w, a, tally);
    case RefuseForProfile(_) => OfferAgrees(l, w, a, tally);
    case Finish => FinishAgrees(l, w, tally);
    case Park => ParkAgrees(l, w, tally);
    case Clear => ClearAgrees(l, w, tally);
    case RotatorReports(event) => ReportAgrees(l, w, event, tally);
    case Read => ReadAgrees(l, w, tally);
    case ResetAll =>
    case _ => SettingAgrees(l, w, a, tally);
  }

  /**
   * The tracker agrees with its history: after any run, each lifetime counter is the number of
   * its events since the last reset, capped at the largest 32-bit value; the commanded position
   * is the last bearing taken, which is inside the travel; and frequency, reported position,
   * silence and last error are those of the last act that set them.
   */
  lemma {:induction false} CountersAgreeWithHistory(l: Limits, late: nat, run: seq<World>, acts: seq<Act>, i: nat)
    requires l.Valid() && Runs(l, late, run, acts) && FromPowerOn(l, run) && i <= |acts|
    ensures Agrees(l, run[i].tracker.status, TallyAt(l, run, acts, i))
    ensures TallyAt(l, run, acts, i).position.Some? ==> l.Allows(TallyAt(l, run, acts, i).position.value)
  {
    EveryRunKeepsTimer(l, late, run, acts, i);
    if i == 0 {
    } else {
      CountersAgreeWithHistory(l, late, run, acts, i - 1);
      ActAgrees(l, late, run[i - 1], acts[i - 1], TallyAt(l, run, acts, i - 1));
    }
  }

  // ---------------------------------------------------------------- how the state changes

  /** The silence has lasted a grace: the last bearing is that old, or there was none. */
  predicate Silent(s: Status, now: nat) {
    s.bearingSeen && now >= s.lastBearing + s.grace
  }

  /**
   * What every act makes of the state, in every run. A bearing that is taken starts or resumes a
   * pass, except in the middle of a park; the handler goes one step towards the park when the
   * silence has lasted a grace; a command parks from everywhere but a fault; a park ends only with
   * the rotator's report; a failure is a fault from everywhere, and only a clear leaves it.
   */
  lemma StateFollows(l: Limits, late: nat, run: seq<World>, acts: seq<Act>, i: nat)
    requires l.Valid() && Runs(l, late, run, acts) && FromPowerOn(l, run) && i < |acts|
    ensures
      var s, from, to := run[i].tracker.status, run[i].tracker.status.state, run[i + 1].tracker.status.state;
      match acts[i]
      case ResetAll => to == Parked
      case Offer(_) =>
        to == if !Takes(l, run[i], acts[i]) then from else if from == Parking then Parking else Tracking
      case Park => to == if from == Fault then Fault else Parking
      case Clear => to == if from == Fault then Parked else from
      case RotatorReports(ParkReached) => to == if from == Parking then Parked else from
      case RotatorReports(_) => to == Fault
      case Finish =>
        to == if from == Tracking && Silent(s, run[i].now) then Holding
              else if from == Holding && Silent(s, run[i].now) then Parking else from
      case _ => to == from
  {
    EveryRunKeepsTimer(l, late, run, acts, i);
    assert run[i + 1] == Acted(l, run[i], acts[i]);
  }

  /** What every act does to the timer and to what waits behind it. */
  lemma TimerFollows(l: Limits, late: nat, run: seq<World>, acts: seq<Act>, i: nat)
    requires l.Valid() && Runs(l, late, run, acts) && FromPowerOn(l, run) && i < |acts|
    ensures
      var s, now := run[i].tracker.status, run[i].now;
      var t, t' := run[i].tracker.timer, run[i + 1].tracker.timer;
      var live := run[i + 1].tracker.status.state.Tracking? || run[i + 1].tracker.status.state.Holding?;
      match acts[i]
      case Fire => t' == Timer(None, if t.queued.Some? then t.queued else t.deadline, t.running)
      case Start => t' == Timer(t.deadline, None, t.queued)
      case Finish =>
        var due := if now < s.lastBearing + s.grace then s.lastBearing + s.grace else now + s.grace;
        t' == Timer(if live then Some(due) else t.deadline, t.queued, None)
      case Offer(_) => t' == if Takes(l, run[i], acts[i]) then t.(deadline := Some(now + s.grace)) else t
      case Grace(length) => t' == if live then t.(deadline := Some(now + length)) else t
      case ResetAll => t' == Timer(None, None, t.running)
      case _ => t' == t
  {
    EveryRunKeepsTimer(l, late, run, acts, i);
    assert run[i + 1] == Acted(l, run[i], acts[i]);
  }

  /** What the calls answer; the travel includes its ends. */
  lemma CallsAnswer(l: Limits, t: Tracker, bearing: Option<Bearing>, hz: u64, now: nat)
    ensures
      OfferBearing(l, t, bearing, now).1 ==
      match bearing
      case None => Failed(EINVAL)
      case Some(b) =>
        if t.status.state == Fault then Failed(EPERM)
        else if l.azimuthMin * 1000 <= b.azimuth <= l.azimuthMax * 1000 &&
                l.elevationMin * 1000 <= b.elevation <= l.elevationMax * 1000 then Done
        else Failed(EINVAL)
    ensures OfferFrequency(t, hz).1 == if hz == 0 then Failed(EINVAL) else Done
    ensures CommandPark(l, t).1 == if t.status.state == Fault then Failed(EPERM) else Done
    ensures ClearFault(l, t).1 == if t.status.state == Fault then Done else Failed(EALREADY)
  {
  }

  /** What a reading shows is what the tracker holds, field by field. */
  lemma ReadingShows(s: Status)
    ensures
      var r := ReadingOf(s);
      && r.state == s.state && r.commanded == s.commanded && r.actual == s.actual && r.frequency == s.frequency
      && r.silence == s.silence && r.grace == s.grace && r.bearings == s.bearings && r.refusals == s.refusals
      && r.passesEnded == s.passesEnded && r.faults == s.faults && r.lastError == s.lastError
  {
  }

  /** Between two acts of a run nothing but a bearing, a wake-up or a command happens: no report and no reset. */
  predicate Unreported(acts: seq<Act>, i: nat, j: nat) {
    i <= j <= |acts| && forall k :: i <= k < j ==> !acts[k].RotatorReports? && !acts[k].ResetAll?
  }

  /** A pass does not resume halfway into a park: until the rotator reports, or a reset, the antenna keeps parking. */
  lemma {:induction false} ParkRunsToItsEnd(l: Limits, late: nat, run: seq<World>, acts: seq<Act>, i: nat, j: nat)
    requires l.Valid() && Runs(l, late, run, acts) && FromPowerOn(l, run)
    requires Unreported(acts, i, j) && run[i].tracker.status.state == Parking
    ensures run[j].tracker.status.state == Parking
    decreases j - i
  {
    if i == j {
    } else {
      ParkRunsToItsEnd(l, late, run, acts, i, j - 1);
      StateFollows(l, late, run, acts, j - 1);
    }
  }

  /** Between two acts of a run nothing resets the tracker and no operator clears it. */
  predicate Uncleared(acts: seq<Act>, i: nat, j: nat) {
    i <= j <= |acts| && forall k :: i <= k < j ==> !acts[k].Clear? && !acts[k].ResetAll?
  }

  /**
   * A fault is left only by an operator's clear, a reset aside: until one comes, however many
   * bearings, reports and wake-ups arrive, the tracker stays in fault, commands what it
   * commanded and counts no fault, no bearing and no end of a pass.
   */
  lemma {:induction false} FaultStays(l: Limits, late: nat, run: seq<World>, acts: seq<Act>, i: nat, j: nat)
    requires Runs(l, late, run, acts) && Uncleared(acts, i, j) && run[i].tracker.status.state.Fault?
    ensures
      var s, s' := run[i].tracker.status, run[j].tracker.status;
      && s'.state.Fault? && s'.commanded == s.commanded && s'.lastBearing == s.lastBearing
      && s'.bearings == s.bearings && s'.passesEnded == s.passesEnded && s'.faults == s.faults
    decreases j - i
  {
    if i == j {
    } else {
      FaultStays(l, late, run, acts, i, j - 1);
      assert run[j] == Acted(l, run[j - 1], acts[j - 1]);
    }
  }
}
