/**
 * The two units of the ground station as they are written: a tracker whose calls update its
 * fields and its work item in place, and a table of profiles in front of it. Every call is
 * proved against the functions of PassTracker and Profiles. A call is one critical section;
 * `now` is what the monotonic clock reads inside it.
 */
module Gpredict {
  import opened Prelude
  import opened PassTracker
  import opened Profiles

  /** gpredict.c */
  class Antenna {
    const limits: Limits
    var state: State
    var commanded: Bearing
    var actual: Bearing
    var frequencyHz: u64
    var silenceMs: u32
    var graceMs: u32
    var bearings: u32
    var refusals: u32
    var passesEnded: u32
    var faults: u32
    var lastError: Option<Errno>
    var lastBearingMs: nat
    var bearingSeen: bool
    var refusing: bool
    var work: Timer
    var initialized: bool

    ghost function Status(): Status
      reads this
    {
      PassTracker.Status(state, commanded, actual, frequencyHz, silenceMs, graceMs, bearings, refusals, passesEnded,
                         faults, lastError, lastBearingMs, bearingSeen, refusing)
    }

    ghost function Contents(): Tracker
      reads this
    {
      Tracker(Status(), work)
    }

    constructor (l: Limits)
      ensures limits == l && Contents() == PowerOn(l) && !initialized
    {
      limits := l;
      state := Parked;
      commanded, actual := Bearing(0, 0), Bearing(0, 0);
      frequencyHz, silenceMs, graceMs := 0, 0, l.graceMs;
      bearings, refusals, passesEnded, faults := 0, 0, 0, 0;
      lastError, lastBearingMs, bearingSeen, refusing := None, 0, false, false;
      work, initialized := IDLE, false;
    }

    method CountUp(counter: u32) returns (counted: u32)
      ensures counted == PassTracker.CountUp(counter)
    {
      counted := counter;
      if counter < U32_MAX {
        counted := counter + 1;
      }
    }

    method PassIsLive() returns (live: bool)
      ensures live == Live(Status())
    {
      live := state == Tracking || state == Holding;
    }

    method SilenceNow(now: nat) returns (silence: u32)
      ensures silence == PassTracker.SilenceNow(Status(), now)
    {
      if !bearingSeen {
        return 0;
      }
      var elapsed := 0;
      if now > lastBearingMs {
        elapsed := now - lastBearingMs;
      }
      silence := if elapsed > U32_MAX then U32_MAX else elapsed;
    }

    method Apply(event: Event)
      modifies `state, `actual, `faults, `passesEnded, `lastError
      ensures Status() == ApplyEvent(limits, old(Status()), event)
    {
      var previous := state;
      var next := Next(previous, event);
      if event == ParkReached {
        actual := limits.ParkPosition();
      }
      if next == previous {
        return;
      }
      state := next;
      if next == Fault {
        faults := CountUp(faults);
        lastError := Some(EIO);
      }
      if previous == Holding && event == Silence {
        passesEnded := CountUp(passesEnded);
      }
    }

    method RotatorReports(event: Event)
      modifies this
      ensures Contents() == Report(limits, old(Contents()), event)
      ensures initialized == old(initialized)
    {
      Apply(event);
    }

    method StartParked()
      modifies `state, `graceMs, `lastError
      ensures state == Parked && graceMs == limits.graceMs && lastError == None
    {
      state := Parked;
      graceMs := limits.graceMs;
      lastError := None;
    }

    method ZeroReadings()
      modifies `commanded, `actual, `frequencyHz, `silenceMs
      ensures commanded == Bearing(0, 0) && actual == Bearing(0, 0) && frequencyHz == 0 && silenceMs == 0
    {
      commanded := Bearing(0, 0);
      actual := Bearing(0, 0);
      frequencyHz := 0;
      silenceMs := 0;
    }

    method ZeroCounters()
      modifies `bearings, `refusals, `passesEnded, `faults
      ensures bearings == 0 && refusals == 0 && passesEnded == 0 && faults == 0
    {
      bearings := 0;
      refusals := 0;
      passesEnded := 0;
      faults := 0;
    }

    method ForgetBearings()
      modifies `lastBearingMs, `bearingSeen, `refusing
      ensures lastBearingMs == 0 && !bearingSeen && !refusing
    {
      lastBearingMs := 0;
      bearingSeen := false;
      refusing := false;
    }

    method Reset()
      modifies this
      ensures Contents() == ResetState(limits, old(Contents()))
      ensures initialized
    {
      work := Cancel(work);
      StartParked();
      ZeroReadings();
      ZeroCounters();
      ForgetBearings();
      assert Status() == PassTracker.Reset(limits);
      initialized := true;
    }

    method Init()
      modifies this
      ensures Contents() == if old(initialized) then old(Contents()) else ResetState(limits, old(Contents()))
      ensures initialized
    {
      if !initialized {
        Reset();
      }
    }

    method Refuse(error: Errno)
      modifies `refusals, `lastError, `refusing
      ensures Status() == PassTracker.Refuse(old(Status()), error)
    {
      refusals := CountUp(refusals);
      lastError := Some(error);
      refusing := true;
    }

    method Note(bearing: Bearing, now: nat)
      modifies `refusing, `commanded, `lastBearingMs, `bearingSeen, `bearings
      ensures refusing == false && commanded == bearing && lastBearingMs == now && bearingSeen
      ensures bearings == PassTracker.CountUp(old(bearings))
    {
      refusing := false;
      commanded := bearing;
      lastBearingMs := now;
      bearingSeen := true;
      bearings := CountUp(bearings);
    }

    method TakeBearing(bearing: Option<Bearing>, now: nat) returns (outcome: Outcome)
      modifies this
      ensures (Contents(), outcome) == OfferBearing(limits, old(Contents()), bearing, now)
      ensures initialized == old(initialized)
    {
      if bearing == None {
        return Failed(EINVAL);
      }
      outcome := Done;
      if state == Fault {
        outcome := Failed(EPERM);
      } else if !limits.Allows(bearing.value) {
        outcome := Failed(EINVAL);
      }
      if outcome != Done {
        Refuse(outcome.error);
        return;
      }
      Note(bearing.value, now);
      Apply(BearingCame);
      work := Reschedule(work, now, graceMs);
    }

    method TakeFrequency(hz: u64) returns (outcome: Outcome)
      modifies this
      ensures (Contents(), outcome) == OfferFrequency(old(Contents()), hz)
      ensures initialized == old(initialized)
    {
      outcome := Done;
      if hz == 0 {
        outcome := Failed(EINVAL);
        lastError := Some(EINVAL);
      } else {
        frequencyHz := hz;
      }
    }

    method Park() returns (outcome: Outcome)
      modifies this
      ensures (Contents(), outcome) == CommandPark(limits, old(Contents()))
      ensures initialized == old(initialized)
    {
      outcome := Done;
      if state == Fault {
        outcome := Failed(EPERM);
        lastError := Some(EPERM);
      } else {
        Apply(ParkCommanded);
      }
    }

    method Clear() returns (outcome: Outcome)
      modifies this
      ensures (Contents(), outcome) == ClearFault(limits, old(Contents()))
      ensures initialized == old(initialized)
    {
      outcome := Done;
      if state != Fault {
        outcome := Failed(EALREADY);
      } else {
        Apply(Cleared);
      }
    }

    /** Without a destination nothing happens. */
    method GetStatus(wanted: bool, now: nat) returns (outcome: Outcome, copy: Option<Reading>)
      modifies this
      ensures Contents() == if wanted then ReadStatus(old(Contents()), now) else old(Contents())
      ensures outcome == if wanted then Done else Failed(EINVAL)
      ensures copy == if wanted then Some(ReadingOf(Status())) else None
      ensures initialized == old(initialized)
    {
      if !wanted {
        return Failed(EINVAL), None;
      }
      silenceMs := SilenceNow(now);
      outcome := Done;
      copy := Some(Reading(state, commanded, actual, frequencyHz, silenceMs, graceMs, bearings, refusals, passesEnded,
                           faults, lastError));
    }

    method GraceSet(grace: u32, now: nat)
      modifies this
      ensures Contents() == SetGrace(old(Contents()), grace, now)
      ensures initialized == old(initialized)
    {
      graceMs := grace;
      var live := PassIsLive();
      if live {
        work := Reschedule(work, now, grace);
      }
    }

    method SilenceCheck(now: nat)
      modifies this
      ensures Contents() == CheckSilence(limits, old(Contents()), now)
      ensures initialized == old(initialized)
    {
      var waited := SilenceNow(now);
      var live := PassIsLive();
      if live && waited >= graceMs {
        Apply(Silence);
      }
      live := PassIsLive();
      if live {
        work := Reschedule(work, now, if waited < graceMs then graceMs - waited else graceMs);
      }
    }
  }

  /** -ENOENT */
  const NOTHING_SELECTED := -2

  /** gpredict_profiles.c; a selection below zero is no selection. */
  class ProfileTable {
    const limits: Limits
    const profiles: array<Profile>
    const antenna: Antenna
    var selected: int

    ghost predicate Valid()
      reads this
    {
      selected < profiles.Length && antenna.limits == limits
    }

    ghost function Contents(): Table
      reads this, profiles
    {
      Table(profiles[..], if selected < 0 then None else Some(selected))
    }

    constructor (a: Antenna, count: nat)
      ensures Valid() && fresh(profiles) && antenna == a
      ensures Contents() == Table(seq(count, _ => Blank()), None)
    {
      limits := a.limits;
      antenna := a;
      profiles := new Profile[count](_ => Blank());
      selected := NOTHING_SELECTED;
    }

    method Define(index: nat, profile: Option<Profile>) returns (outcome: Outcome)
      requires Valid()
      modifies this, profiles
      ensures Valid()
      ensures (Contents(), outcome) == Profiles.Define(limits, old(Contents()), index, profile)
    {
      if profile == None {
        return Failed(EINVAL);
      }
      if index >= profiles.Length {
        return Failed(ENOSPC);
      }
      if !profile.value.Valid(limits) {
        return Failed(EINVAL);
      }
      profiles[index] := profile.value;
      if selected == index && !profile.value.enabled {
        selected := NOTHING_SELECTED;
      }
      outcome := Done;
    }

    method Select(index: nat) returns (outcome: Outcome)
      requires Valid()
      modifies this
      ensures Valid()
      ensures (Contents(), outcome) == Profiles.Select(old(Contents()), index)
    {
      outcome := Done;
      if !(index < profiles.Length && profiles[index].Defined()) {
        outcome := Failed(ENOENT);
      } else if !profiles[index].enabled {
        outcome := Failed(EPERM);
      } else {
        selected := index;
      }
    }

    method Enable(index: nat, enabled: bool) returns (outcome: Outcome)
      requires Valid()
      modifies profiles
      ensures (Contents(), outcome) == Profiles.Enable(old(Contents()), index, enabled)
    {
      outcome := Done;
      if !(index < profiles.Length && profiles[index].Defined()) {
        outcome := Failed(ENOENT);
      } else if !enabled && selected == index {
        outcome := Failed(EBUSY);
      } else {
        profiles[index] := profiles[index].(enabled := enabled);
      }
    }

    /** kfsw_gpredict_profile_get */
    method Get(index: nat, wanted: bool) returns (outcome: Outcome, profile: Option<Profile>)
      ensures outcome == if !wanted then Failed(EINVAL)
                         else if SlotDefined(profiles[..], index) then Done else Failed(ENOENT)
      ensures outcome == Done ==> profile == Some(profiles[index])
      ensures outcome != Done ==> profile == None
    {
      profile := None;
      if !wanted {
        return Failed(EINVAL), None;
      }
      outcome := Done;
      if !(index < profiles.Length && profiles[index].Defined()) {
        outcome := Failed(ENOENT);
      } else {
        profile := Some(profiles[index]);
      }
    }

    method Judge(bearing: Option<Bearing>, now: nat) returns (outcome: Outcome)
      requires Valid()
      modifies antenna
      ensures (antenna.Contents(), outcome) ==
              Profiles.Judge(limits, Contents(), old(antenna.Contents()), bearing, now)
    {
      if bearing == None {
        return Failed(EINVAL);
      }
      if selected < 0 {
        outcome := Failed(ENOENT);
      } else if !profiles[selected].Contains(bearing.value) {
        antenna.Refuse(EINVAL);
        outcome := Failed(EINVAL);
      } else {
        outcome := antenna.TakeBearing(bearing, now);
      }
    }

    /** Without a destination for what to send nothing is decided. */
    method Forward(offered: u64, wanted: bool) returns (outcome: Outcome, send: Option<u64>)
      requires Valid()
      ensures outcome == if wanted then Profiles.Forward(Contents(), offered).0 else Failed(EINVAL)
      ensures send == if wanted then Some(Profiles.Forward(Contents(), offered).1) else None
    {
      if !wanted {
        return Failed(EINVAL), None;
      }
      send := Some(0);
      if offered == 0 {
        return Failed(EINVAL), send;
      }
      outcome := Done;
      if selected < 0 {
        outcome := Failed(ENOENT);
      } else if profiles[selected].policy == Follow {
        send := Some(offered);
      } else if profiles[selected].policy == Hold {
        send := Some(profiles[selected].frequency);
      }
    }
  }
}
