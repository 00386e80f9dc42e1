/** The per-device profile and the pure rules that update it: applying an
    observation, the signal trend, the cross-mode flag and the label and
    watchlist edits. */
module Profiles {
  import opened Common
  import opened Observations

  datatype Trend = Unknown | Approaching | Receding | Stable

  /** `DeviceProfile`; timestamps are epoch seconds (None for the empty string),
      and the encounter score is an opaque ordered key. */
  datatype DeviceProfile = DeviceProfile(
    mac: string,
    deviceLabel: string,
    group: string,
    manufacturer: string,
    ssids: seq<string>,
    firstSeen: Option<int>,
    lastSeen: Option<int>,
    totalEncounters: int,
    homeEncounters: int,
    roamEncounters: int,
    encounterScore: real,
    signalHistory: seq<int>,
    signalTrend: Trend,
    modesSeenIn: seq<string>,
    notes: string,
    isWatchlisted: bool,
    crossModeDetected: bool)

  /** Most readings kept in a signal history. */
  const HistoryCap: nat := 20

  /** Readings the trend looks at. */
  const TrendWindow: nat := 5

  /** `DeviceProfile(mac=mac)`: every other field at its default. */
  function NewProfile(mac: string): DeviceProfile {
    DeviceProfile(mac, "", "unknown", "", [], None, None, 0, 0, 0, 0.0, [], Unknown, [], "", false, false)
  }

  /** `display_name`. */
  function DisplayName(p: DeviceProfile): (r: string)
    ensures p.deviceLabel != "" ==> r == p.deviceLabel
    ensures p.deviceLabel == "" ==> r == p.mac
    ensures r == "" ==> p.mac == ""
  {
    if p.deviceLabel != "" then p.deviceLabel else p.mac
  }

  /** Names without empties and repeats, as the source's list unions keep them. */
  predicate CleanNames(names: seq<string>) {
    NoDuplicates(names) && "" !in names
  }

  /** What every profile the engine builds satisfies. */
  predicate WellFormed(p: DeviceProfile) {
    |p.signalHistory| <= HistoryCap && CleanNames(p.ssids) && CleanNames(p.modesSeenIn)
  }

  /** The history after appending a reading and keeping the newest 20. */
  function Recorded(history: seq<int>, reading: int): (r: seq<int>)
    ensures r == TakeLast(history + [reading], HistoryCap)
    ensures |r| <= HistoryCap && r[|r| - 1] == reading
    ensures |history| < HistoryCap ==> r == history + [reading]
    ensures |history| == HistoryCap ==> r == history[1..] + [reading]
  {
    var h := history + [reading];
    if |h| > HistoryCap then h[|h| - HistoryCap..] else h
  }

  /** The fields `_update_profile` never writes are those of `p`. */
  predicate UntouchedFields(p: DeviceProfile, r: DeviceProfile) {
    && r.mac == p.mac && r.firstSeen == p.firstSeen
    && r.deviceLabel == p.deviceLabel && r.group == p.group && r.notes == p.notes
    && r.isWatchlisted == p.isWatchlisted && r.crossModeDetected == p.crossModeDetected
    && r.homeEncounters == p.homeEncounters && r.roamEncounters == p.roamEncounters
    && r.encounterScore == p.encounterScore && r.signalTrend == p.signalTrend
  }

  /** The in-place part of `_update_profile`, on the profile found or just
      created: count the encounter, stamp last-seen, fill in a missing
      manufacturer, merge the SSIDs, record the signal, add the mode tag. */
  function Observed(p: DeviceProfile, raw: Observation, mode: string, last: int, manufacturer: string): (r: DeviceProfile)
    ensures UntouchedFields(p, r)
    ensures r.totalEncounters == p.totalEncounters + 1 && r.lastSeen == Some(last)
    ensures r.manufacturer == (if p.manufacturer == "" || p.manufacturer == "Unknown" then manufacturer else p.manufacturer)
    ensures forall s :: s in r.ssids <==> s in p.ssids || (s != "" && s in raw.ssids)
    ensures forall m :: m in r.modesSeenIn <==> m in p.modesSeenIn || (m == mode && mode != "")
    ensures raw.signal.Some? ==> r.signalHistory == Recorded(p.signalHistory, raw.signal.value)
    ensures raw.signal.None? ==> r.signalHistory == p.signalHistory
  {
    p.(totalEncounters := p.totalEncounters + 1, lastSeen := Some(last),
       manufacturer := if p.manufacturer == "" || p.manufacturer == "Unknown" then manufacturer else p.manufacturer,
       ssids := MergeNames(p.ssids, raw.ssids),
       signalHistory := if raw.signal.Some? then Recorded(p.signalHistory, raw.signal.value) else p.signalHistory,
       modesSeenIn := AddName(p.modesSeenIn, mode))
  }

  /** The profile `_update_profile` creates for an address it has no profile for. */
  function Created(raw: Observation, first: int, last: int, manufacturer: string): (r: DeviceProfile)
    ensures r.mac == raw.mac && r.manufacturer == manufacturer && r.ssids == raw.ssids
    ensures r.firstSeen == Some(first) && r.lastSeen == Some(last)
    ensures r.totalEncounters == 0 && r.homeEncounters == 0 && r.roamEncounters == 0
    ensures r.signalHistory == [] && r.modesSeenIn == [] && r.signalTrend == Unknown
    ensures r.deviceLabel == "" && r.group == "unknown" && r.notes == ""
    ensures !r.isWatchlisted && !r.crossModeDetected && r.encounterScore == 0.0
  {
    NewProfile(raw.mac).(manufacturer := manufacturer, ssids := raw.ssids,
                         firstSeen := Some(first), lastSeen := Some(last))
  }

  /** `raw.get("manufacturer") or lookup_manufacturer(mac)`. */
  function ObservedManufacturer(raw: Observation): string {
    if raw.manufacturer != "" then raw.manufacturer else LookupManufacturer(raw.mac)
  }

  /** An observation's epoch when it has a non-zero one, the clock otherwise. */
  function StampOr(t: Option<int>, now: int): int {
    if Truthy(t) then t.value else now
  }

  /** `_update_profile` applied to the profile stored for the observation's
      address (None when there is none yet); `now` is the clock in seconds. */
  function UpdatedProfile(existing: Option<DeviceProfile>, raw: Observation, mode: string, now: int): (r: DeviceProfile)
    ensures existing.Some? ==>
      r == Observed(existing.value, raw, mode, StampOr(raw.lastTime, now), ObservedManufacturer(raw))
    ensures existing.None? ==>
      && r.mac == raw.mac && r.totalEncounters == 1 && r.ssids == raw.ssids
      && r.firstSeen == Some(StampOr(raw.firstTime, now)) && r.lastSeen == Some(StampOr(raw.lastTime, now))
      && r.manufacturer == ObservedManufacturer(raw)
      && r.deviceLabel == "" && r.group == "unknown" && r.notes == ""
      && !r.isWatchlisted && !r.crossModeDetected
      && r.homeEncounters == 0 && r.roamEncounters == 0 && r.encounterScore == 0.0
      && r.signalTrend == Unknown
      && r.signalHistory == (if raw.signal.Some? then [raw.signal.value] else [])
      && r.modesSeenIn == (if mode != "" then [mode] else [])
  {
    var manufacturer := ObservedManufacturer(raw);
    var last := StampOr(raw.lastTime, now);
    var p := if existing.Some? then existing.value
             else Created(raw, StampOr(raw.firstTime, now), last, manufacturer);
    MergeNamesAbsorbed(raw.ssids, raw.ssids);
    Observed(p, raw, mode, last, manufacturer)
  }

  /** Applying an observation to a stored profile: one more encounter, first-seen
      and the user's fields kept, SSIDs and mode tags only grow (old ones first, in
      order, new ones non-empty), a known manufacturer kept and a missing or
      "Unknown" one replaced by the observed one, and the signal history
      the newest 20 readings. */
  lemma UpdateExisting(p: DeviceProfile, raw: Observation, mode: string, now: int)
    ensures var r := UpdatedProfile(Some(p), raw, mode, now);
      && UntouchedFields(p, r)
      && r.totalEncounters == p.totalEncounters + 1
      && r.lastSeen == Some(StampOr(raw.lastTime, now))
      && |p.ssids| <= |r.ssids| && r.ssids[..|p.ssids|] == p.ssids
      && (forall s :: s in r.ssids <==> s in p.ssids || (s != "" && s in raw.ssids))
      && |p.modesSeenIn| <= |r.modesSeenIn| && r.modesSeenIn[..|p.modesSeenIn|] == p.modesSeenIn
      && (forall m :: m in r.modesSeenIn <==> m in p.modesSeenIn || (m == mode && mode != ""))
      && (p.manufacturer != "" && p.manufacturer != "Unknown" ==> r.manufacturer == p.manufacturer)
      && (p.manufacturer == "" || p.manufacturer == "Unknown" ==> r.manufacturer == ObservedManufacturer(raw))
      && (raw.signal.None? ==> r.signalHistory == p.signalHistory)
      && (raw.signal.Some? ==> r.signalHistory == TakeLast(p.signalHistory + [raw.signal.value], HistoryCap))
      && (raw.signal.Some? ==> |r.signalHistory| <= HistoryCap)
  {
    var r := UpdatedProfile(Some(p), raw, mode, now);
    assert r.ssids == MergeNames(p.ssids, raw.ssids);
    assert r.modesSeenIn == AddName(p.modesSeenIn, mode);
  }

  /** Applying an observation keeps a profile well formed, and builds a well
      formed one from an observation whose names are clean. */
  lemma UpdatedWellFormed(existing: Option<DeviceProfile>, raw: Observation, mode: string, now: int)
    requires existing.Some? ==> WellFormed(existing.value)
    requires existing.None? ==> CleanNames(raw.ssids)
    ensures WellFormed(UpdatedProfile(existing, raw, mode, now))
  {
    var r := UpdatedProfile(existing, raw, mode, now);
    if existing.Some? {
      assert r.ssids == MergeNames(existing.value.ssids, raw.ssids);
      assert r.modesSeenIn == AddName(existing.value.modesSeenIn, mode);
    }
  }

  /** `calculate_signal_trend` on a profile's history: the newest reading against
      the oldest of the last five. */
  function TrendOf(history: seq<int>): (t: Trend)
    ensures var n := |history|; var oldest := if n <= TrendWindow then 0 else n - TrendWindow;
      && (t == Unknown <==> n < 2)
      && (t == Approaching <==> n >= 2 && history[n - 1] - history[oldest] > 5)
      && (t == Receding <==> n >= 2 && history[n - 1] - history[oldest] < -5)
      && (t == Stable <==> n >= 2 && -5 <= history[n - 1] - history[oldest] <= 5)
  {
    var hist := TakeLast(history, TrendWindow);
    if |hist| < 2 then Unknown
    else
      var delta := hist[|hist| - 1] - hist[0];
      if delta > 5 then Approaching
      else if delta < -5 then Receding
      else Stable
  }

  /** `calculate_signal_trend(mac)` against a registry. */
  function SignalTrend(devices: map<string, DeviceProfile>, mac: string): (t: Trend)
    ensures mac !in devices ==> t == Unknown
    ensures mac in devices ==> t == TrendOf(devices[mac].signalHistory)
  {
    if mac !in devices then Unknown else TrendOf(devices[mac].signalHistory)
  }

  /** The mode tag whose presence next to the current one means cross-mode. */
  function OtherMode(current: string): string {
    if current == "HOME" then "ROAM" else "HOME"
  }

  /** Whether `_check_cross_mode` raises its CRITICAL alert. */
  predicate CrossModeFires(p: DeviceProfile, current: string) {
    OtherMode(current) in p.modesSeenIn && !p.crossModeDetected
  }

  /** The profile after `_check_cross_mode`. */
  function CrossModeChecked(p: DeviceProfile, current: string): (r: DeviceProfile)
    ensures r.crossModeDetected <==> p.crossModeDetected || OtherMode(current) in p.modesSeenIn
    ensures r == p.(crossModeDetected := r.crossModeDetected)
  {
    if CrossModeFires(p, current) then p.(crossModeDetected := true) else p
  }

  /** `label_device` on a profile. */
  function Labeled(p: DeviceProfile, deviceLabel: string, group: string, notes: string): (r: DeviceProfile)
    ensures r == p.(deviceLabel := deviceLabel, group := group, notes := r.notes)
    ensures r.notes == if notes == "" then p.notes else notes
  {
    p.(deviceLabel := deviceLabel, group := group, notes := if notes != "" then notes else p.notes)
  }

  /** `add_to_watchlist` on a profile. */
  function Watchlisted(p: DeviceProfile, reason: string): (r: DeviceProfile)
    ensures r == p.(isWatchlisted := true, group := "watchlist", notes := r.notes)
    ensures r.notes == if reason == "" then p.notes else "WATCHLISTED: " + reason
  {
    p.(isWatchlisted := true, group := "watchlist",
       notes := if reason != "" then "WATCHLISTED: " + reason else p.notes)
  }

  /** `remove_from_watchlist` on a profile. */
  function Unwatchlisted(p: DeviceProfile): (r: DeviceProfile)
    ensures r == p.(isWatchlisted := false, group := r.group)
    ensures r.group == if p.group == "watchlist" then "unknown" else p.group
  {
    p.(isWatchlisted := false, group := if p.group == "watchlist" then "unknown" else p.group)
  }

  /** Whether the watchlist queries and sweep include a profile. */
  predicate OnWatchlist(p: DeviceProfile) {
    p.isWatchlisted || p.group == "watchlist"
  }
}

/** The sticky cross-mode flag over any sequence of operations on one profile. */
module CrossModeHistory {
  import opened Common
  import opened Observations
  import opened Profiles

  /** What the engine and its callers can do to one stored profile. */
  datatype ProfileOp =
    | Observe(raw: Observation, mode: string, now: int)
    | CheckCrossMode(current: string)
    | Label(deviceLabel: string, group: string, notes: string)
    | Watch(reason: string)
    | Unwatch

  /** One operation: the new profile and whether a cross-mode alert fired. */
  function Apply(p: DeviceProfile, op: ProfileOp): (DeviceProfile, bool) {
    match op
    case Observe(raw, mode, now) => (UpdatedProfile(Some(p), raw, mode, now), false)
    case CheckCrossMode(current) => (CrossModeChecked(p, current), CrossModeFires(p, current))
    case Label(l, g, n) => (Labeled(p, l, g, n), false)
    case Watch(reason) => (Watchlisted(p, reason), false)
    case Unwatch => (Unwatchlisted(p), false)
  }

  /** The profile after all operations, and how many cross-mode alerts fired. */
  function Replay(p: DeviceProfile, ops: seq<ProfileOp>): (DeviceProfile, nat)
    decreases |ops|
  {
    if ops == [] then (p, 0)
    else
      var (q, fired) := Apply(p, ops[0]);
      var (r, n) := Replay(q, ops[1..]);
      (r, n + if fired then 1 else 0)
  }

  /** No operation clears the flag, and the alert fires exactly when the flag
      is set. */
  lemma ApplySticky(p: DeviceProfile, op: ProfileOp)
    ensures p.crossModeDetected ==> Apply(p, op).0.crossModeDetected
    ensures Apply(p, op).1 <==> !p.crossModeDetected && Apply(p, op).0.crossModeDetected
  {
    if op.Observe? {
      UpdateExisting(p, op.raw, op.mode, op.now);
    }
  }

  /** Whatever happens to a profile, the cross-mode CRITICAL alert fires at most
      once in its lifetime, never once the flag is set, and the flag never
      returns to false. */
  lemma {:induction false} CrossModeAtMostOnce(p: DeviceProfile, ops: seq<ProfileOp>)
    ensures Replay(p, ops).1 <= if p.crossModeDetected then 0 else 1
    ensures p.crossModeDetected ==> Replay(p, ops).0.crossModeDetected
    ensures Replay(p, ops).1 == 1 ==> Replay(p, ops).0.crossModeDetected
    decreases |ops|
  {
    if ops != [] {
      ApplySticky(p, ops[0]);
      CrossModeAtMostOnce(Apply(p, ops[0]).0, ops[1..]);
    }
  }

  /** A device seen roaming and then observed at home raises the alert on the
      first home check and not on the second. */
  lemma RoamThenHome(p: DeviceProfile, raw1: Observation, raw2: Observation, t1: int, t2: int)
    requires "ROAM" in p.modesSeenIn && !p.crossModeDetected
    ensures Replay(p, [Observe(raw1, "HOME", t1), CheckCrossMode("HOME"),
                       Observe(raw2, "HOME", t2), CheckCrossMode("HOME")]).1 == 1
  {
    var o1, c, o2 := Observe(raw1, "HOME", t1), CheckCrossMode("HOME"), Observe(raw2, "HOME", t2);
    var ops := [o1, c, o2, c];
    UpdateExisting(p, raw1, "HOME", t1);
    var q1 := Apply(p, o1).0;
    assert !Apply(p, o1).1 && CrossModeFires(q1, "HOME");
    var q2 := Apply(q1, c).0;
    CrossModeAtMostOnce(q2, [o2, c]);
    assert Replay(q1, [c, o2, c]).1 == 1 by {
      assert [c, o2, c][1..] == [o2, c];
    }
    assert ops[1..] == [c, o2, c];
  }
}
