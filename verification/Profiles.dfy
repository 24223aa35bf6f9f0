/**
 * The profile layer: spacecraft profiles that narrow the rotator's travel, judged before
 * the tracker sees a bearing.
 */
module Profiles {
  import opened Prelude
  import opened PassTracker
  import opened PassTiming

  const NAME_MAX := 16

  function NoName(): seq<u8> {
    [0, 0, 0, 0, 0, 0, 0, 0, 0, 0, 0, 0, 0, 0, 0, 0]
  }

  /** The bytes of a name: the first zero ends it. */
  type Name = name: seq<u8> | |name| == NAME_MAX witness NoName()

  datatype Policy = Follow | Hold | Ignore | Unknown(code: u8)

  datatype Profile = Profile(name: Name, catalogue: u32, azimuthMin: int, azimuthMax: int,
                             elevationMin: int, elevationMax: int, frequency: u64, policy: Policy, enabled: bool)
  {
    /** within_profile */
    predicate Contains(b: Bearing) {
      azimuthMin <= b.azimuth <= azimuthMax && elevationMin <= b.elevation <= elevationMax
    }

    /** travel_fits */
    predicate Fits(l: Limits) {
      && azimuthMin <= azimuthMax && elevationMin <= elevationMax
      && l.azimuthMin * 1000 <= azimuthMin && azimuthMax <= l.azimuthMax * 1000
      && l.elevationMin * 1000 <= elevationMin && elevationMax <= l.elevationMax * 1000
    }

    /** slot_defined, for a slot of the table: its name is not empty. */
    predicate Defined() {
      name[0] != 0
    }

    /** profile_valid: a terminated name that is not empty, a travel that fits, a policy that can be followed. */
    predicate Valid(l: Limits) {
      && Defined() && 0 in name
      && Fits(l) && !policy.Unknown?
      && (policy.Hold? ==> frequency != 0)
    }
  }

  function Blank(): Profile {
    Profile(NoName(), 0, 0, 0, 0, 0, 0, Follow, false)
  }

  /** The slots and the selection. */
  datatype Table = Table(slots: seq<Profile>, selected: Option<nat>)
  {
    predicate InRange() {
      selected.Some? ==> selected.value < |slots|
    }

    function Chosen(): Profile
      requires InRange() && selected.Some?
    {
      slots[selected.value]
    }
  }

  /** slot_defined */
  predicate SlotDefined(slots: seq<Profile>, index: nat) {
    index < |slots| && slots[index].Defined()
  }

  /** kfsw_gpredict_profile_define */
  function Define(l: Limits, t: Table, index: nat, profile: Option<Profile>): (Table, Outcome) {
    if profile.None? then (t, Failed(EINVAL))
    else if index >= |t.slots| then (t, Failed(ENOSPC))
    else if !profile.value.Valid(l) then (t, Failed(EINVAL))
    else
      (Table(t.slots[index := profile.value],
             if t.selected == Some(index) && !profile.value.enabled then None else t.selected),
       Done)
  }

  /** kfsw_gpredict_profile_select */
  function Select(t: Table, index: nat): (Table, Outcome) {
    if !SlotDefined(t.slots, index) then (t, Failed(ENOENT))
    else if !t.slots[index].enabled then (t, Failed(EPERM))
    else (t.(selected := Some(index)), Done)
  }

  /** kfsw_gpredict_profile_enable */
  function Enable(t: Table, index: nat, enabled: bool): (Table, Outcome) {
    if !SlotDefined(t.slots, index) then (t, Failed(ENOENT))
    else if !enabled && t.selected == Some(index) then (t, Failed(EBUSY))
    else (t.(slots := t.slots[index := t.slots[index].(enabled := enabled)]), Done)
  }

  /** kfsw_gpredict_profile_bearing, on the tracker behind the table */
  function Judge(l: Limits, t: Table, tracker: Tracker, bearing: Option<Bearing>, now: nat): (Tracker, Outcome)
    requires t.InRange()
  {
    if bearing.None? then (tracker, Failed(EINVAL))
    else if t.selected.None? then (tracker, Failed(ENOENT))
    else if !t.Chosen().Contains(bearing.value) then
      (tracker.(status := Refuse(tracker.status, EINVAL)), Failed(EINVAL))
    else OfferBearing(l, tracker, bearing, now)
  }

  /** kfsw_gpredict_profile_frequency: the outcome, and what to send. */
  function Forward(t: Table, offered: u64): (Outcome, u64)
    requires t.InRange()
  {
    if offered == 0 then (Failed(EINVAL), 0)
    else if t.selected.None? then (Failed(ENOENT), 0)
    else
      var p := t.Chosen();
      (Done, if p.policy.Follow? then offered else if p.policy.Hold? then p.frequency else 0)
  }

  // ---------------------------------------------------------------- runs

  /** The table, and the tracker behind it under its clock. */
  datatype Station = Station(table: Table, world: World)

  function FreshStation(l: Limits, count: nat): Station {
    Station(Table(seq(count, _ => Blank()), None), World(PowerOn(l), 0))
  }

  datatype Call =
    | DefineSlot(index: nat, profile: Option<Profile>)
    | SelectSlot(index: nat)
    | EnableSlot(index: nat, enabled: bool)
    | JudgeBearing(bearing: Option<Bearing>)
    | TrackerAct(act: Act)

  predicate CallEnabled(late: nat, st: Station, call: Call) {
    call.TrackerAct? ==> Enabled(late, st.world, call.act)
  }

  function Called(l: Limits, st: Station, call: Call): (after: Station)
    requires st.table.InRange()
    ensures after.table.InRange()
  {
    match call
    case DefineSlot(index, profile) => st.(table := Define(l, st.table, index, profile).0)
    case SelectSlot(index) => st.(table := Select(st.table, index).0)
    case EnableSlot(index, enabled) => st.(table := Enable(st.table, index, enabled).0)
    case JudgeBearing(bearing) =>
      st.(world := st.world.(tracker := Judge(l, st.table, st.world.tracker, bearing, st.world.now).0))
    case TrackerAct(act) => st.(world := Acted(l, st.world, act))
  }

  /** `run` lists the stations around each call, from power on. */
  predicate StationRun(l: Limits, late: nat, run: seq<Station>, calls: seq<Call>) {
    && |run| == |calls| + 1
    && run[0] == FreshStation(l, |run[0].table.slots|)
    && forall i {:trigger calls[i]} :: 0 <= i < |calls| ==>
                     && CallEnabled(late, run[i], calls[i]) && run[i].table.InRange()
                     && run[i + 1] == Called(l, run[i], calls[i])
  }

  // ---------------------------------------------------------------- the profiles are sound

  /** Every defined slot holds a valid profile, and the selected one is defined and enabled. */
  predicate TableInv(l: Limits, t: Table) {
    && (forall i :: 0 <= i < |t.slots| && t.slots[i].Defined() ==> t.slots[i].Valid(l))
    && (t.selected.Some? ==> SlotDefined(t.slots, t.selected.value) && t.Chosen().enabled)
  }

  lemma CallKeepsStation(l: Limits, st: Station, call: Call)
    requires TableInv(l, st.table)
    ensures TableInv(l, Called(l, st, call).table)
  {
  }

  /** In every run, every station has only valid profiles and selects only an enabled one. */
  lemma {:induction false} EveryRunKeepsStation(l: Limits, late: nat, run: seq<Station>, calls: seq<Call>, i: nat)
    requires StationRun(l, late, run, calls) && i < |run|
    ensures TableInv(l, run[i].table)
  {
    if i == 0 {
    } else {
      EveryRunKeepsStation(l, late, run, calls, i - 1);
      CallKeepsStation(l, run[i - 1], calls[i - 1]);
    }
  }

  // ---------------------------------------------------------------- the layer over the tracker

  /** The act of the tracker that a call comes down to, if any. */
  function ActOf(st: Station, call: Call): Option<Act>
    requires st.table.InRange()
  {
    match call
    case JudgeBearing(bearing) =>
      if bearing.None? || st.table.selected.None? then None
      else if st.table.Chosen().Contains(bearing.value) then Some(Offer(bearing))
      else Some(RefuseForProfile(EINVAL))
    case TrackerAct(act) => Some(act)
    case _ => None
  }

  lemma CallIsAct(l: Limits, late: nat, st: Station, call: Call)
    requires st.table.InRange() && CallEnabled(late, st, call)
    ensures
      var act := ActOf(st, call);
      if act.None? then Called(l, st, call).world == st.world
      else Enabled(late, st.world, act.value) && Called(l, st, call).world == Acted(l, st.world, act.value)
  {
  }

  /**
   * The profile layer is a user of the tracker like any other: whatever is called, the
   * tracker goes through one of its own runs, so what is proved of every run of the tracker
   * holds behind the profiles.
   */
  lemma {:induction false} StationRefinesTracker(l: Limits, late: nat, run: seq<Station>, calls: seq<Call>, i: nat)
      returns (worlds: seq<World>, acts: seq<Act>)
    requires StationRun(l, late, run, calls) && i < |run|
    ensures Runs(l, late, worlds, acts) && FromPowerOn(l, worlds)
    ensures |acts| <= i && worlds[|acts|] == run[i].world
  {
    if i == 0 {
      worlds, acts := [run[0].world], [];
    } else {
      worlds, acts := StationRefinesTracker(l, late, run, calls, i - 1);
      CallIsAct(l, late, run[i - 1], calls[i - 1]);
      var act := ActOf(run[i - 1], calls[i - 1]);
      if act.Some? {
        worlds, acts := worlds + [run[i].world], acts + [act.value];
      }
    }
  }

  /**
   * Profiles narrow and never widen: in every run the selected profile is defined, enabled
   * and valid, so a bearing inside it is one the tracker's own travel check accepts, and only
   * a fault can still refuse it; and what the antenna is commanded is inside the travel.
   */
  lemma ProfilesNarrow(l: Limits, late: nat, run: seq<Station>, calls: seq<Call>, i: nat, b: Bearing)
    requires l.Valid() && StationRun(l, late, run, calls) && i < |run| && run[i].table.selected.Some?
    ensures SlotDefined(run[i].table.slots, run[i].table.selected.value)
    ensures
      var st := run[i];
      var p := st.table.Chosen();
      var (after, outcome) := Judge(l, st.table, st.world.tracker, Some(b), st.world.now);
      var inside := p.azimuthMin <= b.azimuth <= p.azimuthMax && p.elevationMin <= b.elevation <= p.elevationMax;
      && p.Valid(l) && p.enabled
      && (inside ==> l.Allows(b))
      && (outcome == if !inside then Failed(EINVAL)
                     else if st.world.tracker.status.state.Fault? then Failed(EPERM) else Done)
      && after.status.commanded == (if outcome.Done? then b else st.world.tracker.status.commanded)
      && (after.status.bearingSeen ==> l.Allows(after.status.commanded))
  {
    EveryRunKeepsStation(l, late, run, calls, i);
    var worlds, acts := StationRefinesTracker(l, late, run, calls, i);
    EveryRunKeepsTimer(l, late, worlds, acts, |acts|);
  }

  /**
   * What is forwarded, in every run: FOLLOW sends what was offered, HOLD the frequency of the
   * profile, IGNORE nothing; and zero goes out exactly when nothing is to be sent.
   */
  lemma ForwardsByPolicy(l: Limits, late: nat, run: seq<Station>, calls: seq<Call>, i: nat, offered: u64)
    requires StationRun(l, late, run, calls) && i < |run|
    ensures run[i].table.InRange()
    ensures
      var t := run[i].table;
      var (outcome, send) := Forward(t, offered);
      && outcome == (if offered == 0 then Failed(EINVAL) else if t.selected.None? then Failed(ENOENT) else Done)
      && send == (if outcome != Done then 0
                  else match t.Chosen().policy
                       case Follow => offered
                       case Hold => t.Chosen().frequency
                       case _ => 0)
      && (send == 0 <==> offered == 0 || t.selected.None? || t.Chosen().policy.Ignore?)
  {
    EveryRunKeepsStation(l, late, run, calls, i);
  }

  // ---------------------------------------------------------------- the table, by history

  /**
   * What a profile must be to be taken: a name that is not empty and ends within its bytes, a
   * travel with its ends in order and inside the rotator's, a policy that exists, and
   * something to hold if it is to be held.
   */
  predicate Acceptable(l: Limits, p: Profile) {
    && p.name[0] != 0 && (exists j :: 0 < j < NAME_MAX && p.name[j] == 0)
    && l.azimuthMin * 1000 <= p.azimuthMin <= p.azimuthMax <= l.azimuthMax * 1000
    && l.elevationMin * 1000 <= p.elevationMin <= p.elevationMax <= l.elevationMax * 1000
    && (p.policy == Follow || p.policy == Ignore || (p.policy == Hold && p.frequency != 0))
  }

  lemma ValidIsAcceptable(l: Limits, p: Profile)
    ensures p.Valid(l) <==> Acceptable(l, p)
  {
    if p.name[0] != 0 && 0 in p.name {
      var j :| 0 <= j < NAME_MAX && p.name[j] == 0;
      assert 0 < j;
    }
  }

  /** The profile in a slot after the first `i` calls: the last one taken for it, switched by the calls since. */
  function SlotAt(l: Limits, count: nat, calls: seq<Call>, i: nat, index: nat): Option<Profile>
    requires i <= |calls|
    decreases i, 0
  {
    if i == 0 then None
    else
      var before := SlotAt(l, count, calls, i - 1, index);
      match calls[i - 1]
      case DefineSlot(k, Some(p)) => if k == index && index < count && Acceptable(l, p) then Some(p) else before
      case EnableSlot(k, enabled) =>
        if k == index && before.Some? && (enabled || SelectionAt(l, count, calls, i - 1) != Some(index))
        then Some(before.value.(enabled := enabled)) else before
      case _ => before
  }

  /** The selection after the first `i` calls: the last slot chosen, unless it was defined anew as disabled since. */
  function SelectionAt(l: Limits, count: nat, calls: seq<Call>, i: nat): Option<nat>
    requires i <= |calls|
    decreases i, 1
  {
    if i == 0 then None
    else
      var before := SelectionAt(l, count, calls, i - 1);
      match calls[i - 1]
      case SelectSlot(k) =>
        var slot := SlotAt(l, count, calls, i - 1, k);
        if slot.Some? && slot.value.enabled then Some(k) else before
      case DefineSlot(k, Some(p)) =>
        if before == Some(k) && k < count && Acceptable(l, p) && !p.enabled then None else before
      case _ => before
  }

  /** The table holds in a slot what history says. */
  predicate Holds(t: Table, index: nat, slot: Option<Profile>) {
    && (SlotDefined(t.slots, index) <==> slot.Some?)
    && (slot.Some? ==> t.slots[index] == slot.value)
  }

  /** A call changes a slot as history says. */
  lemma CallMovesSlot(l: Limits, count: nat, calls: seq<Call>, i: nat, st: Station, index: nat)
    requires i < |calls| && |st.table.slots| == count && st.table.InRange()
    requires forall k: nat :: Holds(st.table, k, SlotAt(l, count, calls, i, k))
    requires st.table.selected == SelectionAt(l, count, calls, i)
    ensures Holds(Called(l, st, calls[i]).table, index, SlotAt(l, count, calls, i + 1, index))
  {
    assert Holds(st.table, index, SlotAt(l, count, calls, i, index));
    if calls[i].DefineSlot? && calls[i].profile.Some? {
      ValidIsAcceptable(l, calls[i].profile.value);
    } else if calls[i].EnableSlot? {
      assert Holds(st.table, calls[i].index, SlotAt(l, count, calls, i, calls[i].index));
    }
  }

  lemma CallMovesSelection(l: Limits, count: nat, calls: seq<Call>, i: nat, st: Station)
    requires i < |calls| && |st.table.slots| == count && st.table.InRange()
    requires forall k: nat :: Holds(st.table, k, SlotAt(l, count, calls, i, k))
    requires st.table.selected == SelectionAt(l, count, calls, i)
    ensures Called(l, st, calls[i]).table.selected == SelectionAt(l, count, calls, i + 1)
  {
    if calls[i].DefineSlot? && calls[i].profile.Some? {
      ValidIsAcceptable(l, calls[i].profile.value);
    } else if calls[i].SelectSlot? {
      assert Holds(st.table, calls[i].index, SlotAt(l, count, calls, i, calls[i].index));
    }
  }

  /**
   * The table is its history: in every run each slot holds the last profile that was taken for
   * it, with the switch as last set, and the selection is the last slot that was chosen.
   */
  lemma {:induction false} TableFollowsHistory(l: Limits, late: nat, run: seq<Station>, calls: seq<Call>, i: nat)
    requires StationRun(l, late, run, calls) && i <= |calls|
    ensures
      var count := |run[0].table.slots|;
      && |run[i].table.slots| == count && run[i].table.InRange()
      && run[i].table.selected == SelectionAt(l, count, calls, i)
      && forall index: nat :: Holds(run[i].table, index, SlotAt(l, count, calls, i, index))
  {
    var count := |run[0].table.slots|;
    EveryRunKeepsStation(l, late, run, calls, i);
    if i == 0 {
    } else {
      TableFollowsHistory(l, late, run, calls, i - 1);
      assert run[i] == Called(l, run[i - 1], calls[i - 1]);
      CallMovesSelection(l, count, calls, i - 1, run[i - 1]);
      forall index: nat
        ensures Holds(run[i].table, index, SlotAt(l, count, calls, i, index))
      {
        CallMovesSlot(l, count, calls, i - 1, run[i - 1], index);
      }
    }
  }

  /** What the calls on the table answer, in the order in which they look. */
  lemma TableCallsAnswer(l: Limits, t: Table, index: nat, profile: Option<Profile>, enabled: bool)
    ensures
      Define(l, t, index, profile).1 ==
      if profile.None? then Failed(EINVAL)
      else if index >= |t.slots| then Failed(ENOSPC)
      else if Acceptable(l, profile.value) then Done else Failed(EINVAL)
    ensures
      Select(t, index).1 ==
      if index >= |t.slots| || t.slots[index].name[0] == 0 then Failed(ENOENT)
      else if t.slots[index].enabled then Done else Failed(EPERM)
    ensures
      Enable(t, index, enabled).1 ==
      if index >= |t.slots| || t.slots[index].name[0] == 0 then Failed(ENOENT)
      else if t.selected == Some(index) && !enabled then Failed(EBUSY) else Done
  {
    if profile.Some? {
      ValidIsAcceptable(l, profile.value);
    }
  }

  /** One when a bearing is decided on: judged with a profile selected, or given to the tracker past the profiles. */
  function Decided(st: Station, call: Call): nat {
    match call
    case JudgeBearing(bearing) => if bearing.Some? && st.table.selected.Some? then 1 else 0
    case TrackerAct(Offer(bearing)) => if bearing.Some? then 1 else 0
    case TrackerAct(RefuseForProfile(_)) => 1
    case _ => 0
  }

  predicate Resets(call: Call) {
    call.TrackerAct? && call.act.ResetAll?
  }

  /** The bearings decided on in the first `i` calls, since the last reset. */
  function DecidedAt(run: seq<Station>, calls: seq<Call>, i: nat): nat
    requires i <= |calls| < |run|
  {
    if i == 0 || Resets(calls[i - 1]) then 0
    else DecidedAt(run, calls, i - 1) + Decided(run[i - 1], calls[i - 1])
  }

  /** No act but a bearing or a reset touches the two counters. */
  lemma ActCountsNothing(l: Limits, w: World, act: Act)
    requires !act.Offer? && !act.RefuseForProfile? && !act.ResetAll?
    ensures
      var s, s' := w.tracker.status, Acted(l, w, act).tracker.status;
      s'.bearings == s.bearings && s'.refusals == s.refusals
  {
  }

  lemma CallCounts(l: Limits, st: Station, call: Call)
    requires st.table.InRange() && !Resets(call)
    requires st.world.tracker.status.bearings + st.world.tracker.status.refusals + Decided(st, call) <= U32_MAX
    ensures
      var s, s' := st.world.tracker.status, Called(l, st, call).world.tracker.status;
      && s'.bearings + s'.refusals == s.bearings + s.refusals + Decided(st, call)
      && s'.bearings >= s.bearings && s'.refusals >= s.refusals
  {
    if call.TrackerAct? && !call.act.Offer? && !call.act.RefuseForProfile? {
      ActCountsNothing(l, st.world, call.act);
    }
  }

  /**
   * Conservation: in every run, and before saturation, every bearing that is decided on,
   * through the profiles or past them, is counted exactly once, as taken or as refused, and
   * nothing else is counted.
   */
  lemma {:induction false} DecidedBearingsAreCounted(l: Limits, late: nat, run: seq<Station>, calls: seq<Call>, i: nat)
    requires StationRun(l, late, run, calls) && i < |run| && DecidedAt(run, calls, i) <= U32_MAX
    ensures
      var s := run[i].world.tracker.status;
      s.bearings + s.refusals == DecidedAt(run, calls, i)
  {
    if i == 0 {
    } else if Resets(calls[i - 1]) {
      assert run[i] == Called(l, run[i - 1], calls[i - 1]);
    } else {
      DecidedBearingsAreCounted(l, late, run, calls, i - 1);
      CallCounts(l, run[i - 1], calls[i - 1]);
    }
  }
}
