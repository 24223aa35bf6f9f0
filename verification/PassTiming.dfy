/**
 * The tracker under a virtual clock. Time passes, the timer fires never early, and the
 * handler runs at most `late` milliseconds after the time it was due; calls come in any
 * order between.
 */
module PassTiming {
  import opened Prelude
  import opened PassTracker

  datatype World = World(tracker: Tracker, now: nat)

  datatype Act =
    | Tick(ms: nat)
    | Fire                                  // the timer expires: the item is queued
    | Start                                 // the work queue takes the item up
    | Finish                                // its handler gets the lock and runs
    | Offer(bearing: Option<Bearing>)
    | RefuseForProfile(error: Errno)
    | Frequency(hz: u64)
    | Park
    | Clear
    | Read
    | Grace(length: u32)
    | RotatorReports(event: Event)
    | ResetAll

  /** Something will call the handler: a running timer, a queued item or a running one. */
  predicate Armed(t: Timer) {
    t.deadline.Some? || t.queued.Some? || t.running.Some?
  }

  /** What is there is due no later than `x`. */
  predicate DueBy(o: Option<nat>, x: int) {
    o.Some? ==> o.value <= x
  }

  /** At this time nothing is overdue by more than `late`. */
  predicate InTime(t: Timer, now: nat, late: nat) {
    && (t.deadline.Some? ==> now <= t.deadline.value + late)
    && (t.queued.Some? ==> now <= t.queued.value + late)
    && (t.running.Some? ==> now <= t.running.value + late)
  }

  predicate Enabled(late: nat, w: World, a: Act) {
    var timer := w.tracker.timer;
    match a
    case Tick(ms) => InTime(timer, w.now + ms, late)
    case Fire => timer.deadline.Some? && timer.deadline.value <= w.now
    case Start => timer.queued.Some? && timer.running.None?
    case Finish => timer.running.Some?
    case Grace(length) => GRACE_MIN_MS <= length <= GRACE_MAX_MS
    case RotatorReports(event) => event.ParkReached? || event.Failure?
    case _ => true
  }

  /** An expired timer queues the item; an item queued already is not queued twice. */
  function Fired(t: Timer): Timer {
    t.(deadline := None, queued := if t.queued.Some? then t.queued else t.deadline)
  }

  function Started(t: Timer): Timer {
    t.(queued := None, running := t.queued)
  }

  function Acted(l: Limits, w: World, a: Act): World {
    var t := w.tracker;
    match a
    case Tick(ms) => w.(now := w.now + ms)
    case Fire => w.(tracker := t.(timer := Fired(t.timer)))
    case Start => w.(tracker := t.(timer := Started(t.timer)))
    case Finish => w.(tracker := CheckSilence(l, t.(timer := t.timer.(running := None)), w.now))
    case Offer(bearing) => w.(tracker := OfferBearing(l, t, bearing, w.now).0)
    case RefuseForProfile(error) => w.(tracker := t.(status := Refuse(t.status, error)))
    case Frequency(hz) => w.(tracker := OfferFrequency(t, hz).0)
    case Park => w.(tracker := CommandPark(l, t).0)
    case Clear => w.(tracker := ClearFault(l, t).0)
    case Read => w.(tracker := ReadStatus(t, w.now))
    case Grace(length) => w.(tracker := SetGrace(t, length, w.now))
    case RotatorReports(event) => w.(tracker := Report(l, t, event))
    case ResetAll => w.(tracker := ResetState(l, t))
  }

  /** `run` lists the worlds around each act. */
  predicate Runs(l: Limits, late: nat, run: seq<World>, acts: seq<Act>) {
    && |run| == |acts| + 1
    && forall i {:trigger acts[i]} :: 0 <= i < |acts| ==>
         Enabled(late, run[i], acts[i]) && run[i + 1] == Acted(l, run[i], acts[i])
  }

  predicate FromPowerOn(l: Limits, run: seq<World>) {
    |run| > 0 && run[0] == World(PowerOn(l), 0)
  }

  // ---------------------------------------------------------------- invariants of every run

  /**
   * A live pass has a wake-up armed or its handler about to run; no wake-up is overdue by
   * more than the lateness; an item is queued only once it was due; the grace is one an
   * operator may set; and once a bearing was taken, the commanded position is inside the travel.
   */
  predicate TimerInv(l: Limits, late: nat, w: World) {
    var s, timer := w.tracker.status, w.tracker.timer;
    && (Live(s) ==> Armed(timer) && s.bearingSeen)
    && InTime(timer, w.now, late)
    && DueBy(timer.queued, w.now) && DueBy(timer.running, w.now)
    && s.lastBearing <= w.now
    && GRACE_MIN_MS <= s.grace <= GRACE_MAX_MS
    && (s.bearingSeen ==> l.Allows(s.commanded))
  }

  lemma FinishKeepsTimer(l: Limits, late: nat, w: World)
    requires l.Valid() && TimerInv(l, late, w) && Enabled(late, w, Finish)
    ensures TimerInv(l, late, Acted(l, w, Finish))
  {
  }

  lemma OfferKeepsTimer(l: Limits, late: nat, w: World, a: Act)
    requires l.Valid() && TimerInv(l, late, w) && Enabled(late, w, a) && a.Offer?
    ensures TimerInv(l, late, Acted(l, w, a))
  {
  }

  lemma ActKeepsTimer(l: Limits, late: nat, w: World, a: Act)
    requires l.Valid() && TimerInv(l, late, w) && Enabled(late, w, a)
    ensures TimerInv(l, late, Acted(l, w, a))
  {
    if a.Finish? {
      FinishKeepsTimer(l, late, w);
    } else if a.Offer? {
      OfferKeepsTimer(l, late, w, a);
    }
  }

  /** The invariant holds in every world of every run, whatever races whatever. */
  lemma {:induction false} EveryRunKeepsTimer(l: Limits, late: nat, run: seq<World>, acts: seq<Act>, i: nat)
    requires l.Valid() && Runs(l, late, run, acts) && FromPowerOn(l, run) && i < |run|
    ensures TimerInv(l, late, run[i])
  {
    if i == 0 {
    } else {
      EveryRunKeepsTimer(l, late, run, acts, i - 1);
      ActKeepsTimer(l, late, run[i - 1], acts[i - 1]);
    }
  }

  /** Time is never stuck: when it may not pass, the work item can be served. */
  lemma TimeCanPass(l: Limits, late: nat, w: World)
    requires TimerInv(l, late, w) && !Enabled(late, w, Tick(1))
    ensures Enabled(late, w, Fire) || Enabled(late, w, Start) || Enabled(late, w, Finish)
  {
  }

  // ---------------------------------------------------------------- the grace and the last bearing, by history

  /** The act is a bearing that the tracker takes. */
  predicate Takes(l: Limits, w: World, a: Act) {
    a.Offer? && a.bearing.Some? && l.Allows(a.bearing.value) && !w.tracker.status.state.Fault?
  }

  /** The grace in force after the first `k` acts: the last one set since the last reset, or the compiled one. */
  function GraceAt(l: Limits, acts: seq<Act>, k: nat): u32
    requires k <= |acts|
  {
    if k == 0 then l.graceMs
    else
      match acts[k - 1]
      case Grace(length) => length
      case ResetAll => l.graceMs
      case _ => GraceAt(l, acts, k - 1)
  }

  /** When the last bearing was taken, of the first `k` acts since the last reset. */
  function HeardAt(l: Limits, run: seq<World>, acts: seq<Act>, k: nat): nat
    requires k <= |acts| < |run|
  {
    if k == 0 || acts[k - 1].ResetAll? then 0
    else if Takes(l, run[k - 1], acts[k - 1]) then run[k - 1].now
    else HeardAt(l, run, acts, k - 1)
  }

  /** What one act does to the grace and to the time of the last bearing. */
  lemma ActKeepsHistory(l: Limits, late: nat, w: World, a: Act)
    requires Enabled(late, w, a)
    ensures
      var s, s' := w.tracker.status, Acted(l, w, a).tracker.status;
      && s'.grace == (if a.Grace? then a.length else if a.ResetAll? then l.graceMs else s.grace)
      && s'.lastBearing == (if a.ResetAll? then 0 else if Takes(l, w, a) then w.now else s.lastBearing)
  {
  }

  /** In every run the tracker's grace and last bearing are those of its history. */
  lemma {:induction false} HistoryInForce(l: Limits, late: nat, run: seq<World>, acts: seq<Act>, k: nat)
    requires Runs(l, late, run, acts) && FromPowerOn(l, run) && k <= |acts|
    ensures run[k].tracker.status.grace == GraceAt(l, acts, k)
    ensures run[k].tracker.status.lastBearing == HeardAt(l, run, acts, k)
  {
    if k == 0 {
    } else {
      HistoryInForce(l, late, run, acts, k - 1);
      ActKeepsHistory(l, late, run[k - 1], acts[k - 1]);
    }
  }

  /**
   * A new grace takes hold at once, in every state: it is in force, and a live pass wakes up
   * a whole new grace from now; a pass that is not live gets no timer.
   */
  lemma GraceTakesHold(l: Limits, late: nat, w: World, length: u32)
    requires Enabled(late, w, Grace(length))
    ensures
      var t, t' := w.tracker, Acted(l, w, Grace(length)).tracker;
      && t'.status == t.status.(grace := length)
      && t'.timer == (if t.status.state.Tracking? || t.status.state.Holding?
                      then t.timer.(deadline := Some(w.now + length)) else t.timer)
  {
  }

  /**
   * No silence is declared early: in every run, whenever the handler changes the state, the
   * last bearing is at least the grace in force old; and nothing but the handler makes a
   * tracking antenna hold.
   */
  lemma SilenceOnlyAfterGrace(l: Limits, late: nat, run: seq<World>, acts: seq<Act>, i: nat)
    requires l.Valid() && Runs(l, late, run, acts) && FromPowerOn(l, run) && i < |acts|
    ensures
      var before, after := run[i].tracker.status, run[i + 1].tracker.status;
      && (acts[i].Finish? && after.state != before.state ==>
            run[i].now >= HeardAt(l, run, acts, i) + GraceAt(l, acts, i))
      && (before.state.Tracking? && after.state.Holding? ==> acts[i].Finish?)
  {
    EveryRunKeepsTimer(l, late, run, acts, i);
    HistoryInForce(l, late, run, acts, i);
  }

  // ---------------------------------------------------------------- the end of a pass

  /** The acts that leave a pass to end by itself: a refused bearing is one, and so is a report of the park reached. */
  predicate Quiet(l: Limits, a: Act) {
    match a
    case Offer(bearing) => bearing.None? || !l.Allows(bearing.value)
    case Park => false
    case Grace(_) => false
    case RotatorReports(event) => event.ParkReached?
    case ResetAll => false
    case _ => true
  }

  /** The last bearing came at `t`, the grace is `g`, and some wake-up is due by `m`. */
  predicate WaitsToHold(w: World, t: nat, g: nat, m: nat) {
    var s, timer := w.tracker.status, w.tracker.timer;
    && s.state.Tracking? && s.bearingSeen && s.lastBearing == t && s.grace == g && t + g <= m <= w.now + g
    && Armed(timer) && DueBy(timer.deadline, m) && DueBy(timer.queued, m) && DueBy(timer.running, m)
  }

  /** The antenna has held since `h`, and some wake-up is due by a grace later. */
  predicate WaitsToPark(w: World, t: nat, g: nat, h: nat) {
    var s, timer := w.tracker.status, w.tracker.timer;
    && s.state.Holding? && s.bearingSeen && s.lastBearing == t && s.grace == g && t + g <= h <= w.now
    && Armed(timer) && DueBy(timer.deadline, h + g) && DueBy(timer.queued, h + g) && DueBy(timer.running, h + g)
  }

  lemma QuietBeforeHold(l: Limits, late: nat, w: World, a: Act, t: nat, g: nat, m: nat)
    requires l.Valid() && TimerInv(l, late, w) && Enabled(late, w, a) && Quiet(l, a) && WaitsToHold(w, t, g, m)
    ensures
      var w' := Acted(l, w, a);
      WaitsToHold(w', t, g, m) || (w'.now <= m + late && WaitsToPark(w', t, g, w'.now))
  {
  }

  lemma QuietBeforePark(l: Limits, late: nat, w: World, a: Act, t: nat, g: nat, h: nat)
    requires l.Valid() && TimerInv(l, late, w) && Enabled(late, w, a) && Quiet(l, a) && WaitsToPark(w, t, g, h)
    ensures
      var w' := Acted(l, w, a);
      WaitsToPark(w', t, g, h) || (w'.tracker.status.state.Parking? && w'.now <= h + g + late)
  {
  }

  /** Where a pass that is left alone can be, at most `late` after what is due by `m`. */
  ghost predicate Ending(w: World, t: nat, g: nat, m: nat, late: nat) {
    || WaitsToHold(w, t, g, m)
    || (exists h: nat :: h <= m + late && WaitsToPark(w, t, g, h))
    || w.tracker.status.state.Parking? || w.tracker.status.state.Parked?
  }

  /** Act `k - 1` took a bearing or changed the grace, and the pass is tracking after it. */
  predicate TimerStarted(l: Limits, run: seq<World>, acts: seq<Act>, k: nat) {
    && 0 < k < |run| && k <= |acts|
    && run[k].tracker.status.state.Tracking?
    && (Takes(l, run[k - 1], acts[k - 1]) || acts[k - 1].Grace?)
  }

  /** Nothing but time, the timer and refused calls happens in acts `k` to `i`. */
  predicate QuietFrom(l: Limits, acts: seq<Act>, k: nat, i: nat) {
    k <= i <= |acts| && forall j :: k <= j < i ==> Quiet(l, acts[j])
  }

  lemma {:induction false} PassEnding(l: Limits, late: nat, run: seq<World>, acts: seq<Act>, k: nat, i: nat)
    requires l.Valid() && Runs(l, late, run, acts) && FromPowerOn(l, run)
    requires TimerStarted(l, run, acts, k) && QuietFrom(l, acts, k, i)
    ensures
      var s := run[k].tracker.status;
      Ending(run[i], s.lastBearing, s.grace, run[k].now + s.grace, late)
  {
    EveryRunKeepsTimer(l, late, run, acts, k - 1);
    EveryRunKeepsTimer(l, late, run, acts, k);
    if i > k {
      PassEnding(l, late, run, acts, k, i - 1);
      EveryRunKeepsTimer(l, late, run, acts, i - 1);
      EndingStep(l, late, run[i - 1], acts[i - 1], run[k].tracker.status.lastBearing, run[k].tracker.status.grace,
                 run[k].now + run[k].tracker.status.grace);
    } else {
      StartsWaiting(l, late, run[k - 1], acts[k - 1]);
    }
  }

  /** A bearing taken, or a grace changed while tracking, leaves the timer due one grace from now. */
  lemma StartsWaiting(l: Limits, late: nat, w: World, a: Act)
    requires l.Valid() && TimerInv(l, late, w) && Enabled(late, w, a)
    requires Takes(l, w, a) || a.Grace?
    requires Acted(l, w, a).tracker.status.state.Tracking?
    ensures
      var w' := Acted(l, w, a);
      var s := w'.tracker.status;
      && WaitsToHold(w', s.lastBearing, s.grace, w'.now + s.grace)
      && (a.Offer? ==> s.lastBearing == w'.now)
  {
  }

  lemma EndingStep(l: Limits, late: nat, w: World, a: Act, t: nat, g: nat, m: nat)
    requires l.Valid() && TimerInv(l, late, w) && Enabled(late, w, a) && Quiet(l, a) && Ending(w, t, g, m, late)
    ensures
      var w' := Acted(l, w, a);
      && Ending(w', t, g, m, late)
      && (w.tracker.status.state.Tracking? && !w'.tracker.status.state.Tracking? ==>
            w'.tracker.status.state.Holding? && t + g <= w'.now <= m + late)
      && (w.tracker.status.state.Holding? && !w'.tracker.status.state.Holding? ==>
            w'.tracker.status.state.Parking? && t + g <= w'.now <= m + g + 2 * late)
  {
    if WaitsToHold(w, t, g, m) {
      QuietBeforeHold(l, late, w, a, t, g, m);
    } else if w.tracker.status.state.Holding? {
      var h: nat :| h <= m + late && WaitsToPark(w, t, g, h);
      QuietBeforePark(l, late, w, a, t, g, h);
    }
  }

  /**
   * Timed end of a pass. After a bearing at `t`, or a grace change at `T` in a pass whose
   * last bearing came at `t`, and with nothing else happening, the antenna tracks, then holds,
   * then parks: it holds at the latest at T + g + late and parks at the latest a grace and
   * another lateness after that (T is t for a bearing).
   */
  lemma PassEndsInTime(l: Limits, late: nat, run: seq<World>, acts: seq<Act>, k: nat, i: nat)
    requires l.Valid() && Runs(l, late, run, acts) && FromPowerOn(l, run)
    requires TimerStarted(l, run, acts, k) && QuietFrom(l, acts, k, i)
    ensures
      var t, g, T := HeardAt(l, run, acts, k), GraceAt(l, acts, k), run[k].now;
      var s := run[i].tracker.status.state;
      && t <= T && (Takes(l, run[k - 1], acts[k - 1]) ==> t == T) && (acts[k - 1].Grace? ==> g == acts[k - 1].length)
      && (s.Tracking? || s.Holding? || s.Parking? || s.Parked?)
      && (s.Tracking? ==> run[i].now <= T + g + late)
      && (s.Holding? ==> t + g <= run[i].now <= T + 2 * g + 2 * late)
  {
    EveryRunKeepsTimer(l, late, run, acts, k - 1);
    StartsWaiting(l, late, run[k - 1], acts[k - 1]);
    EveryRunKeepsTimer(l, late, run, acts, i);
    PassEnding(l, late, run, acts, k, i);
    HistoryInForce(l, late, run, acts, k);
    var t, g, T := HeardAt(l, run, acts, k), GraceAt(l, acts, k), run[k].now;
    if run[i].tracker.status.state.Holding? {
      var h: nat :| h <= T + g + late && WaitsToPark(run[i], t, g, h);
    }
  }

  /**
   * When the two steps are taken: the antenna starts to hold between t + g and T + g + late,
   * and starts to park only from holding, no later than T + 2g + 2 late.
   */
  lemma PassStepsInTime(l: Limits, late: nat, run: seq<World>, acts: seq<Act>, k: nat, i: nat)
    requires l.Valid() && Runs(l, late, run, acts) && FromPowerOn(l, run)
    requires TimerStarted(l, run, acts, k) && k <= i && QuietFrom(l, acts, k, i + 1)
    ensures
      var t, g, T := HeardAt(l, run, acts, k), GraceAt(l, acts, k), run[k].now;
      var before, after := run[i].tracker.status.state, run[i + 1].tracker.status.state;
      && (before.Tracking? && after != before ==> after.Holding? && t + g <= run[i + 1].now <= T + g + late)
      && (before.Holding? && after != before ==> after.Parking? && run[i + 1].now <= T + 2 * g + 2 * late)
  {
    EveryRunKeepsTimer(l, late, run, acts, i);
    PassEnding(l, late, run, acts, k, i);
    HistoryInForce(l, late, run, acts, k);
    EndingStep(l, late, run[i], acts[i], HeardAt(l, run, acts, k), GraceAt(l, acts, k),
               run[k].now + GraceAt(l, acts, k));
  }

  // ---------------------------------------------------------------- not parking too early

  /** The one wake-up there is was due at `x`. */
  predicate Only(timer: Timer, x: nat) {
    timer == Timer(Some(x), None, None) || timer == Timer(None, Some(x), None) || timer == Timer(None, None, Some(x))
  }

  /** A pass whose bearing came at `t` tracks, and every older wake-up is from before `t`. */
  predicate TracksAlone(w: World, t: nat, g: nat) {
    var s, timer := w.tracker.status, w.tracker.timer;
    && s.state.Tracking? && s.bearingSeen && s.lastBearing == t && s.grace == g && t <= w.now
    && if w.now < t + g then timer.deadline == Some(t + g) && DueBy(timer.queued, t) && DueBy(timer.running, t)
       else Only(timer, t + g)
  }

  /** The antenna has held since `h`, and its one wake-up is due a grace later. */
  predicate HoldsAlone(w: World, t: nat, g: nat, h: nat) {
    var s := w.tracker.status;
    && s.state.Holding? && s.bearingSeen && s.lastBearing == t && s.grace == g && t + g <= h <= w.now
    && Only(w.tracker.timer, h + g)
  }

  lemma AloneStep(l: Limits, late: nat, w: World, a: Act, t: nat, g: nat)
    requires l.Valid() && TimerInv(l, late, w) && Enabled(late, w, a) && Quiet(l, a) && late < g
    requires TracksAlone(w, t, g)
    ensures TracksAlone(Acted(l, w, a), t, g) || HoldsAlone(Acted(l, w, a), t, g, w.now)
  {
  }

  lemma HoldStep(l: Limits, late: nat, w: World, a: Act, t: nat, g: nat, h: nat)
    requires l.Valid() && TimerInv(l, late, w) && Enabled(late, w, a) && Quiet(l, a)
    requires HoldsAlone(w, t, g, h)
    ensures HoldsAlone(Acted(l, w, a), t, g, h) ||
            (Acted(l, w, a).tracker.status.state.Parking? && w.now >= h + g)
  {
  }

  /** A pass whose last bearing came at `t` has not parked before two graces. */
  ghost predicate NotEarly(w: World, t: nat, g: nat) {
    || TracksAlone(w, t, g)
    || (exists h: nat :: HoldsAlone(w, t, g, h))
    || ((w.tracker.status.state.Parking? || w.tracker.status.state.Parked?) && w.now >= t + 2 * g)
  }

  lemma NotEarlyStep(l: Limits, late: nat, w: World, a: Act, t: nat, g: nat)
    requires l.Valid() && TimerInv(l, late, w) && Enabled(late, w, a) && Quiet(l, a) && late < g && NotEarly(w, t, g)
    ensures NotEarly(Acted(l, w, a), t, g)
  {
    if TracksAlone(w, t, g) {
      AloneStep(l, late, w, a, t, g);
    } else if w.tracker.status.state.Holding? {
      var h: nat :| HoldsAlone(w, t, g, h);
      HoldStep(l, late, w, a, t, g, h);
    }
  }

  /** When the handler is less than a grace late, a pass that is left alone parks no earlier than two graces. */
  lemma {:induction false} ParksLate(l: Limits, late: nat, run: seq<World>, acts: seq<Act>, k: nat, i: nat)
    requires l.Valid() && Runs(l, late, run, acts) && FromPowerOn(l, run)
    requires TimerStarted(l, run, acts, k) && Takes(l, run[k - 1], acts[k - 1]) && QuietFrom(l, acts, k, i)
    requires late < GraceAt(l, acts, k)
    ensures NotEarly(run[i], run[k].now, GraceAt(l, acts, k))
  {
    HistoryInForce(l, late, run, acts, k);
    if i > k {
      ParksLate(l, late, run, acts, k, i - 1);
      EveryRunKeepsTimer(l, late, run, acts, i - 1);
      NotEarlyStep(l, late, run[i - 1], acts[i - 1], run[k].now, GraceAt(l, acts, k));
    } else {
      EveryRunKeepsTimer(l, late, run, acts, k - 1);
      StartsAlone(l, late, run[k - 1], acts[k - 1]);
    }
  }

  /** A bearing leaves one timer that counts; every older wake-up was due before it. */
  lemma StartsAlone(l: Limits, late: nat, w: World, a: Act)
    requires l.Valid() && TimerInv(l, late, w) && Enabled(late, w, a) && Takes(l, w, a)
    requires Acted(l, w, a).tracker.status.state.Tracking?
    ensures TracksAlone(Acted(l, w, a), w.now, w.tracker.status.grace) && Acted(l, w, a).now == w.now
    ensures Acted(l, w, a).tracker.status.grace == w.tracker.status.grace
  {
  }

  /** In world `i` of a run the antenna is parking, after a pass whose last bearing came just before world `k`. */
  ghost predicate Parks(l: Limits, late: nat, g: u32, run: seq<World>, acts: seq<Act>, k: nat, i: nat) {
    && Runs(l, late, run, acts) && FromPowerOn(l, run)
    && TimerStarted(l, run, acts, k) && Takes(l, run[k - 1], acts[k - 1]) && QuietFrom(l, acts, k, i)
    && GraceAt(l, acts, k) == g && run[i].tracker.status.state.Parking?
  }

  /** The acts of a pass whose handler is kept from running for a whole grace. */
  function StalledActs(l: Limits, g: u32): seq<Act> {
    var b := Offer(Some(l.ParkPosition()));
    [Grace(g), b, Tick(g), Fire, Start, b, Tick(g), Fire, Finish, Start, Finish]
  }

  function WorldsOf(l: Limits, w: World, acts: seq<Act>): (run: seq<World>)
    ensures |run| == |acts| + 1 && run[0] == w
    ensures forall i :: 0 <= i < |acts| ==> run[i + 1] == Acted(l, run[i], acts[i])
    decreases |acts|
  {
    if acts == [] then [w] else [w] + WorldsOf(l, Acted(l, w, acts[0]), acts[1..])
  }

  /** The status such a pass goes through. */
  predicate At(w: World, state: State, last: nat, g: u32, timer: Timer, now: nat) {
    var s := w.tracker.status;
    && s.state == state && s.bearingSeen && s.lastBearing == last && s.grace == g
    && w.tracker.timer == timer && w.now == now
  }

  /** One act, the world it needs and the world it makes. */
  predicate Goes(l: Limits, late: nat, run: seq<World>, acts: seq<Act>, i: nat) {
    i < |acts| && |run| == |acts| + 1 && Enabled(late, run[i], acts[i]) && run[i + 1] == Acted(l, run[i], acts[i])
  }

  /** Up to the second bearing, with the first wake-up kept waiting. */
  lemma StalledStart(l: Limits, late: nat, g: u32, run: seq<World>)
    requires l.Valid() && GRACE_MIN_MS <= g <= GRACE_MAX_MS
    requires run == WorldsOf(l, World(PowerOn(l), 0), StalledActs(l, g))
    ensures forall i :: 0 <= i < 6 ==> Goes(l, late, run, StalledActs(l, g), i)
    ensures !run[5].tracker.status.state.Fault?
    ensures At(run[6], Tracking, g, g, Timer(Some(2 * g), None, Some(g)), g)
  {
    var acts := StalledActs(l, g);
    assert run[1] == Acted(l, run[0], acts[0]) && run[1].tracker.timer == IDLE && run[1].now == 0;
    assert run[2] == Acted(l, run[1], acts[1]) && At(run[2], Tracking, 0, g, Timer(Some(g), None, None), 0);
    assert run[3] == Acted(l, run[2], acts[2]) && At(run[3], Tracking, 0, g, Timer(Some(g), None, None), g);
    assert run[4] == Acted(l, run[3], acts[3]) && At(run[4], Tracking, 0, g, Timer(None, Some(g), None), g);
    assert run[5] == Acted(l, run[4], acts[4]) && At(run[5], Tracking, 0, g, Timer(None, None, Some(g)), g);
    assert run[6] == Acted(l, run[5], acts[5]);
  }

  /** A grace later both wake-ups are served. */
  lemma StalledEnd(l: Limits, late: nat, g: u32, run: seq<World>)
    requires l.Valid() && GRACE_MIN_MS <= g <= GRACE_MAX_MS && g <= late
    requires run == WorldsOf(l, World(PowerOn(l), 0), StalledActs(l, g))
    requires At(run[6], Tracking, g, g, Timer(Some(2 * g), None, Some(g)), g)
    ensures forall i :: 6 <= i < 11 ==> Goes(l, late, run, StalledActs(l, g), i)
    ensures run[11].tracker.status.state.Parking? && run[11].now == 2 * g
  {
    var acts := StalledActs(l, g);
    assert run[7] == Acted(l, run[6], acts[6]) &&
           At(run[7], Tracking, g, g, Timer(Some(2 * g), None, Some(g)), 2 * g);
    assert run[8] == Acted(l, run[7], acts[7]) &&
           At(run[8], Tracking, g, g, Timer(None, Some(2 * g), Some(g)), 2 * g);
    assert run[9] == Acted(l, run[8], acts[8]) &&
           At(run[9], Holding, g, g, Timer(Some(3 * g), Some(2 * g), None), 2 * g);
    assert run[10] == Acted(l, run[9], acts[9]) &&
           At(run[10], Holding, g, g, Timer(Some(3 * g), None, Some(2 * g)), 2 * g);
    assert run[11] == Acted(l, run[10], acts[10]);
  }

  /**
   * When the handler may be a whole grace late, an old wake-up and a new one can be served
   * back to back, and the antenna parks a grace after the last bearing instead of two.
   */
  lemma StalledPassParksEarly(l: Limits, late: nat, g: u32)
    requires l.Valid() && GRACE_MIN_MS <= g <= GRACE_MAX_MS && g <= late
    ensures
      var acts := StalledActs(l, g);
      var run := WorldsOf(l, World(PowerOn(l), 0), acts);
      Parks(l, late, g, run, acts, 6, 11) && run[11].now < run[6].now + 2 * g
  {
    var acts := StalledActs(l, g);
    var run := WorldsOf(l, World(PowerOn(l), 0), acts);
    StalledStart(l, late, g, run);
    StalledEnd(l, late, g, run);
    forall i | 0 <= i < |acts|
      ensures Enabled(late, run[i], acts[i]) && run[i + 1] == Acted(l, run[i], acts[i])
    {
      assert Goes(l, late, run, acts, i);
    }
    HistoryInForce(l, late, run, acts, 6);
  }

  /**
   * Exactly when a pass that is left alone never parks before two graces are over: when the
   * handler is always less than one grace late.
   */
  lemma NeverParksEarlyIffPrompt(l: Limits, late: nat, g: u32)
    requires l.Valid() && GRACE_MIN_MS <= g <= GRACE_MAX_MS
    ensures (forall run: seq<World>, acts: seq<Act>, k: nat, i: nat ::
               Parks(l, late, g, run, acts, k, i) ==> run[i].now >= run[k].now + 2 * g)
            <==> late < g
  {
    if late < g {
      forall run: seq<World>, acts: seq<Act>, k: nat, i: nat | Parks(l, late, g, run, acts, k, i)
        ensures run[i].now >= run[k].now + 2 * g
      {
        ParksLate(l, late, run, acts, k, i);
      }
    } else {
      StalledPassParksEarly(l, late, g);
    }
  }
}
