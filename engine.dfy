/** The detection engine of `TailDetector` as functions on its state: what one
    row of each mode, one mode step and each registry edit does to the profile
    registry, the linger tracker, the alert log and the notifications sent.
    The class in module Detector is proved to follow these functions. */
module Detection {
  import opened Common
  import opened Observations
  import opened Profiles
  import opened Linger
  import opened Alerts
  import opened Ranking

  /** A call from the engine into the notifications module, with its arguments;
      the config argument is the one the engine was built with. */
  datatype NotifyCall =
    | DispatchCall(level: Level, message: Event)
    | ArrivalCall(deviceLabel: string, mac: string, signal: Option<int>)
    | LingerCall(ssid: string, mac: string, elapsedSeconds: int, signal: Option<int>)
    | WatchlistHitCall(deviceLabel: string, mac: string, signal: Option<int>, notes: string)

  /** The config keys the engine reads; None is an absent key. */
  datatype DetectorConfig = DetectorConfig(
    lingerMinutes: Option<real>,         // timing.unknown_ssid_linger_minutes
    roamInterval: Option<int>,           // timing.roam_scan_interval
    doorbellInterval: Option<int>,       // timing.doorbell_scan_interval
    approachingThreshold: Option<int>,   // thresholds.signal_approaching_threshold
    knownArrivalNotify: Option<bool>)    // alerts.known_device_arrival_notify

  function LingerMinutes(cfg: DetectorConfig): real { cfg.lingerMinutes.GetOr(5.0) }
  function RoamInterval(cfg: DetectorConfig): int { cfg.roamInterval.GetOr(15) }
  function DoorbellInterval(cfg: DetectorConfig): int { cfg.doorbellInterval.GetOr(10) }
  function ApproachingThreshold(cfg: DetectorConfig): int { cfg.approachingThreshold.GetOr(-65) }

  /** Everything the engine's steps read and write: the registry (with its
      insertion order), the linger tracker, the global alert log, the
      notifications sent so far, `current_mode` and `present_macs`. */
  datatype Engine = Engine(
    devices: map<string, DeviceProfile>,
    order: seq<string>,
    linger: LingerState,
    alerts: seq<Alert>,
    calls: seq<NotifyCall>,
    mode: string,
    present: set<string>)

  /** What every reachable engine state satisfies: the order lists each
      registered address once, each profile is stored under its own address and
      is well formed, the linger tracker is consistent and the log is bounded. */
  ghost predicate Inv(e: Engine) {
    && NoDuplicates(e.order)
    && (forall k :: k in e.devices <==> k in e.order)
    && (forall k :: k in e.devices ==> e.devices[k].mac == k && WellFormed(e.devices[k]))
    && Consistent(e.linger)
    && |e.alerts| <= Capacity
  }

  /** What a later version of a profile keeps: its address and first sighting,
      counters that never fall, the sticky cross-mode flag, and SSID and mode
      lists that are only appended to. */
  predicate Persists(p: DeviceProfile, q: DeviceProfile) {
    && q.mac == p.mac && q.firstSeen == p.firstSeen
    && q.totalEncounters >= p.totalEncounters
    && q.homeEncounters >= p.homeEncounters
    && q.roamEncounters >= p.roamEncounters
    && (p.crossModeDetected ==> q.crossModeDetected)
    && Extends(p.ssids, q.ssids) && Extends(p.modesSeenIn, q.modesSeenIn)
  }

  /** `r` is a later state of `e`: no profile is ever dropped and each persists,
      and the registry order and the notifications only grow at the end. */
  ghost predicate Grows(e: Engine, r: Engine) {
    && (forall k :: k in e.devices ==> k in r.devices && Persists(e.devices[k], r.devices[k]))
    && Extends(e.order, r.order)
    && Extends(e.calls, r.calls)
  }

  lemma GrowsTrans(a: Engine, b: Engine, c: Engine)
    ensures Grows(a, b) && Grows(b, c) ==> Grows(a, c)
  {
    if Grows(a, b) && Grows(b, c) {
      assert c.order[..|a.order|] == c.order[..|b.order|][..|a.order|];
      assert c.calls[..|a.calls|] == c.calls[..|b.calls|][..|a.calls|];
      forall k | k in a.devices
        ensures Persists(a.devices[k], c.devices[k])
      {
        var p, q, s := a.devices[k], b.devices[k], c.devices[k];
        assert s.ssids[..|p.ssids|] == s.ssids[..|q.ssids|][..|p.ssids|];
        assert s.modesSeenIn[..|p.modesSeenIn|] == s.modesSeenIn[..|q.modesSeenIn|][..|p.modesSeenIn|];
      }
    }
  }

  /** The profile stored for an address, if any. */
  function Lookup(e: Engine, mac: string): Option<DeviceProfile> {
    if mac in e.devices then Some(e.devices[mac]) else None
  }

  /** Storing a profile under an address; a new address goes to the end of
      the registry order, as a new key of a Python dict does. */
  function Put(e: Engine, mac: string, p: DeviceProfile): (r: Engine)
    ensures r.devices == e.devices[mac := p]
    ensures r == e.(devices := r.devices, order := r.order)
    ensures Inv(e) && p.mac == mac && WellFormed(p) ==> Inv(r)
    ensures (mac in e.devices ==> Persists(e.devices[mac], p)) ==> Grows(e, r)
  {
    PutKeeps(e, mac, p);
    e.(devices := e.devices[mac := p], order := if mac in e.devices then e.order else e.order + [mac])
  }

  lemma PutKeeps(e: Engine, mac: string, p: DeviceProfile)
    ensures var r := e.(devices := e.devices[mac := p], order := if mac in e.devices then e.order else e.order + [mac]);
      && (Inv(e) && p.mac == mac && WellFormed(p) ==> Inv(r))
      && ((mac in e.devices ==> Persists(e.devices[mac], p)) ==> Grows(e, r))
  {
    if mac in e.devices ==> Persists(e.devices[mac], p) {
      PutGrows(e, mac, p);
    }
    if Inv(e) && p.mac == mac && WellFormed(p) {
      PutInv(e, mac, p);
    }
  }

  lemma PersistsRefl(p: DeviceProfile)
    ensures Persists(p, p)
  {
    assert p.ssids[..|p.ssids|] == p.ssids;
    assert p.modesSeenIn[..|p.modesSeenIn|] == p.modesSeenIn;
  }

  lemma PutGrows(e: Engine, mac: string, p: DeviceProfile)
    requires mac in e.devices ==> Persists(e.devices[mac], p)
    ensures Grows(e, e.(devices := e.devices[mac := p], order := if mac in e.devices then e.order else e.order + [mac]))
  {
    var r := e.(devices := e.devices[mac := p], order := if mac in e.devices then e.order else e.order + [mac]);
    assert r.order[..|e.order|] == e.order;
    assert e.calls[..|e.calls|] == e.calls;
    forall k | k in e.devices
      ensures k in r.devices && Persists(e.devices[k], r.devices[k])
    {
      if k != mac {
        PersistsRefl(e.devices[k]);
      }
    }
  }

  lemma PutInv(e: Engine, mac: string, p: DeviceProfile)
    requires Inv(e) && p.mac == mac && WellFormed(p)
    ensures Inv(e.(devices := e.devices[mac := p], order := if mac in e.devices then e.order else e.order + [mac]))
  {
    var r := e.(devices := e.devices[mac := p], order := if mac in e.devices then e.order else e.order + [mac]);
    if mac !in e.devices {
      assert mac !in e.order;
      assert NoDuplicates(r.order) by {
        forall i, j | 0 <= i < j < |r.order|
          ensures r.order[i] != r.order[j]
        {
          assert r.order[i] == e.order[i];
          if j < |e.order| {
            assert r.order[j] == e.order[j];
          }
        }
      }
      forall k
        ensures k in r.devices <==> k in r.order
      {
        assert k in r.order <==> k in e.order || k == mac;
      }
    }
  }

  /** Entering a mode keeps the invariant and loses nothing. */
  lemma ModeKeeps(e: Engine, mode: string)
    ensures Inv(e) ==> Inv(e.(mode := mode))
    ensures Grows(e, e.(mode := mode))
  {
    assert e.order[..|e.order|] == e.order;
    assert e.calls[..|e.calls|] == e.calls;
  }

  /** `fire_alert`: the alert goes to the bounded global log. */
  function Fire(e: Engine, level: Level, ev: Event, now: int): (r: Engine)
    ensures r == e.(alerts := Pushed(e.alerts, Alert(level, ev, now)))
    ensures Inv(e) ==> Inv(r)
    ensures Grows(e, r)
  {
    e.(alerts := Pushed(e.alerts, Alert(level, ev, now)))
  }

  /** A call into the notifications module, made only when it could be
      imported (`notif`). */
  function Notify(e: Engine, notif: bool, call: NotifyCall): (r: Engine)
    ensures r == e.(calls := r.calls)
    ensures r.calls == if notif then e.calls + [call] else e.calls
    ensures Inv(e) ==> Inv(r)
    ensures Grows(e, r)
  {
    if notif then e.(calls := e.calls + [call]) else e
  }

  /** `_update_profile(raw, mode)`. */
  function Update(e: Engine, raw: Observation, mode: string, now: int): (r: Engine)
    ensures r.devices == e.devices[raw.mac := UpdatedProfile(Lookup(e, raw.mac), raw, mode, now)]
    ensures r == e.(devices := r.devices, order := r.order)
    ensures Inv(e) && CleanNames(raw.ssids) ==> Inv(r) && Grows(e, r)
  {
    UpdateKeeps(e, raw, mode, now);
    Put(e, raw.mac, UpdatedProfile(Lookup(e, raw.mac), raw, mode, now))
  }

  lemma UpdateKeeps(e: Engine, raw: Observation, mode: string, now: int)
    ensures var p := UpdatedProfile(Lookup(e, raw.mac), raw, mode, now);
      Inv(e) && CleanNames(raw.ssids) ==>
        && p.mac == raw.mac && WellFormed(p)
        && (raw.mac in e.devices ==> Persists(e.devices[raw.mac], p))
  {
    if Inv(e) && CleanNames(raw.ssids) {
      UpdatedWellFormed(Lookup(e, raw.mac), raw, mode, now);
      if raw.mac in e.devices {
        UpdateExisting(e.devices[raw.mac], raw, mode, now);
      }
    }
  }

  /** `_check_cross_mode(p, current)` on the profile stored under `mac`. */
  function CrossModeStep(e: Engine, mac: string, current: string, now: int, notif: bool): (r: Engine)
    requires mac in e.devices
    ensures r.devices == e.devices[mac := CrossModeChecked(e.devices[mac], current)]
    ensures r == e.(devices := r.devices, alerts := r.alerts, calls := r.calls)
    ensures var p := e.devices[mac];
      r.alerts == if CrossModeFires(p, current)
        then Pushed(e.alerts, Alert(Critical, CrossMode(DisplayName(p), p.mac), now)) else e.alerts
    ensures var p := e.devices[mac];
      r.calls == if CrossModeFires(p, current) && notif
        then e.calls + [DispatchCall(Critical, CrossMode(DisplayName(p), p.mac))] else e.calls
    ensures Inv(e) ==> Inv(r) && Grows(e, r)
  {
    var p := e.devices[mac];
    if CrossModeFires(p, current) then
      var ev := CrossMode(DisplayName(p), p.mac);
      Notify(Fire(Put(e, mac, CrossModeChecked(p, current)), Critical, ev, now), notif, DispatchCall(Critical, ev))
    else e
  }

  /** `ssids[0] if ssids else "(hidden)"`. */
  function FirstSsid(ssids: seq<string>): string {
    if ssids != [] then ssids[0] else "(hidden)"
  }

  /** The address has a profile with a non-empty label. */
  predicate IsLabeled(e: Engine, mac: string) {
    mac in e.devices && e.devices[mac].deviceLabel != ""
  }

  /** `_check_linger(mac, ssids, signal)`. */
  function LingerStep(e: Engine, mac: string, ssids: seq<string>, signal: Option<int>, now: int,
                      minutes: real, notif: bool): (r: Engine)
    ensures r == e.(linger := r.linger, alerts := r.alerts, calls := r.calls)
    ensures r.linger == Checked(e.linger, IsLabeled(e, mac), mac, now, minutes)
    ensures r.alerts == if Fires(e.linger, IsLabeled(e, mac), mac, now, minutes)
      then Pushed(e.alerts, Alert(Warning, Lingering(now - e.linger.firstSeen[mac], mac, FirstSsid(ssids), signal), now))
      else e.alerts
    ensures r.calls == if Fires(e.linger, IsLabeled(e, mac), mac, now, minutes) && notif
      then e.calls + [LingerCall(FirstSsid(ssids), mac, now - e.linger.firstSeen[mac], signal)]
      else e.calls
    ensures Inv(e) ==> Inv(r) && Grows(e, r)
  {
    var labeled := IsLabeled(e, mac);
    var e1 := e.(linger := Checked(e.linger, labeled, mac, now, minutes));
    if Fires(e.linger, labeled, mac, now, minutes) then
      var elapsed := now - e.linger.firstSeen[mac];
      var ssid := FirstSsid(ssids);
      Notify(Fire(e1, Warning, Lingering(elapsed, mac, ssid, signal), now), notif,
             LingerCall(ssid, mac, elapsed, signal))
    else e1
  }

  /** All rows have clean SSID lists, as `_parse_kismet_db` produces them. */
  ghost predicate CleanRows(rows: seq<Observation>) {
    forall o :: o in rows ==> CleanNames(o.ssids)
  }

  lemma CleanRowsSplit(rows: seq<Observation>)
    requires rows != []
    ensures CleanRows(rows) ==> CleanRows(rows[..|rows| - 1]) && CleanNames(rows[|rows| - 1].ssids)
  {
    assert rows == rows[..|rows| - 1] + [rows[|rows| - 1]];
  }

  lemma ParsedRowsClean(rows: seq<BackendRow>)
    ensures CleanRows(ParseRows(rows))
  {
  }

  /** The addresses of some rows. */
  function Macs(rows: seq<Observation>): (r: set<string>)
    ensures forall o :: o in rows ==> o.mac in r
    decreases |rows|
  {
    if rows == [] then {}
    else
      assert rows == rows[..|rows| - 1] + [rows[|rows| - 1]];
      Macs(rows[..|rows| - 1]) + {rows[|rows| - 1].mac}
  }

  // ───────────────────────── HOME ─────────────────────────

  /** The profile after HOME's own edits on top of `_update_profile`: one
      more home encounter, the score recomputed, the trend recomputed. */
  function HomeTouched(p: DeviceProfile, score: DeviceProfile -> real): (r: DeviceProfile)
    ensures Persists(p, r) && r.homeEncounters == p.homeEncounters + 1
    ensures r.encounterScore == score(p.(homeEncounters := p.homeEncounters + 1))
    ensures r.signalTrend == TrendOf(p.signalHistory)
    ensures r == p.(homeEncounters := p.homeEncounters + 1, encounterScore := r.encounterScore,
                    signalTrend := TrendOf(p.signalHistory))
    ensures WellFormed(p) ==> WellFormed(r)
  {
    var p1 := p.(homeEncounters := p.homeEncounters + 1);
    var p2 := p1.(encounterScore := score(p1));
    p2.(signalTrend := TrendOf(p2.signalHistory))
  }

  /** The body of the HOME row loop. */
  function HomeRow(e: Engine, raw: Observation, now: int, score: DeviceProfile -> real,
                   cfg: DetectorConfig, notif: bool): (r: Engine)
    ensures Inv(e) && CleanNames(raw.ssids) ==> Inv(r) && Grows(e, r)
  {
    var mac := raw.mac;
    var e1 := Update(e, raw, "HOME", now);
    var e2 := Put(e1, mac, HomeTouched(e1.devices[mac], score));
    var e3 := CrossModeStep(e2, mac, "HOME", now, notif);
    var r := LingerStep(e3, e3.devices[mac].mac, e3.devices[mac].ssids, raw.signal, now, LingerMinutes(cfg), notif);
    GrowsTrans(e, e1, e2);
    GrowsTrans(e, e2, e3);
    GrowsTrans(e, e3, r);
    r
  }

  /** The HOME row loop over the first rows. */
  function HomeRows(e: Engine, rows: seq<Observation>, now: int, score: DeviceProfile -> real,
                    cfg: DetectorConfig, notif: bool): (r: Engine)
    ensures Inv(e) && CleanRows(rows) ==> Inv(r) && Grows(e, r)
    decreases |rows|
  {
    if rows == [] then e
    else
      CleanRowsSplit(rows);
      var mid := HomeRows(e, rows[..|rows| - 1], now, score, cfg, notif);
      var r := HomeRow(mid, rows[|rows| - 1], now, score, cfg, notif);
      GrowsTrans(e, mid, r);
      r
  }

  /** One more row of the HOME loop: one more step of the fold. */
  lemma HomeRowsSnoc(e: Engine, rows: seq<Observation>, i: int, now: int, score: DeviceProfile -> real,
                     cfg: DetectorConfig, notif: bool)
    requires 0 <= i < |rows|
    ensures HomeRows(e, rows[..i + 1], now, score, cfg, notif)
      == HomeRow(HomeRows(e, rows[..i], now, score, cfg, notif), rows[i], now, score, cfg, notif)
  {
    assert rows[..i + 1][..i] == rows[..i];
  }

  /** `run_home_mode` up to the table it prints: announce, warn when there
      is no database file, else process every row of every file. */
  function RunHome(e: Engine, files: seq<seq<BackendRow>>, now: int, score: DeviceProfile -> real,
                   cfg: DetectorConfig, notif: bool): (r: Engine)
    ensures Inv(e) ==> Inv(r) && Grows(e, r)
  {
    ModeKeeps(e, "HOME");
    ParsedRowsClean(Flatten(files));
    var e1 := Fire(e.(mode := "HOME"), Info, HomeStarted, now);
    GrowsTrans(e, e.(mode := "HOME"), e1);
    var r :=
      if files == [] then Fire(e1, Warning, NoDatabases, now)
      else HomeRows(e1, ParseRows(Flatten(files)), now, score, cfg, notif);
    GrowsTrans(e, e1, r);
    r
  }

  // ───────────────────────── ROAM ─────────────────────────

  /** `raw.get("signal") or -100`. */
  function SignalOr(signal: Option<int>): int {
    if signal.Some? && signal.value != 0 then signal.value else -100
  }

  /** The profile after ROAM's own edits: score, trend, and a roam encounter
      when it was never seen at home. */
  function RoamTouched(p: DeviceProfile, score: DeviceProfile -> real): (r: DeviceProfile)
    ensures Persists(p, r) && r.modesSeenIn == p.modesSeenIn
    ensures r.roamEncounters == p.roamEncounters + (if "HOME" in p.modesSeenIn then 0 else 1)
    ensures r.encounterScore == score(p) && r.signalTrend == TrendOf(p.signalHistory)
    ensures r == p.(roamEncounters := r.roamEncounters, encounterScore := score(p),
                    signalTrend := TrendOf(p.signalHistory))
    ensures WellFormed(p) ==> WellFormed(r)
  {
    var p1 := p.(encounterScore := score(p));
    var p2 := p1.(signalTrend := TrendOf(p1.signalHistory));
    if "HOME" !in p2.modesSeenIn then p2.(roamEncounters := p2.roamEncounters + 1) else p2
  }

  /** The address has a profile tagged with mode HOME. */
  predicate SeenAtHome(e: Engine, mac: string) {
    mac in e.devices && "HOME" in e.devices[mac].modesSeenIn
  }

  /** A ROAM update never adds or removes the HOME tag. */
  lemma UpdateKeepsHome(e: Engine, raw: Observation, now: int)
    ensures "HOME" in UpdatedProfile(Lookup(e, raw.mac), raw, "ROAM", now).modesSeenIn <==> SeenAtHome(e, raw.mac)
  {
    var r := UpdatedProfile(Lookup(e, raw.mac), raw, "ROAM", now);
    assert "HOME" != "ROAM" by { assert "HOME"[0] != "ROAM"[0]; }
    if raw.mac in e.devices {
      assert r.modesSeenIn == AddName(e.devices[raw.mac].modesSeenIn, "ROAM");
    } else {
      assert r.modesSeenIn == ["ROAM"];
    }
  }

  /** A ROAM row whose profile is approaching and whose signal (-100 when
      absent) is above the threshold. */
  predicate RoamApproaching(p: DeviceProfile, raw: Observation, cfg: DetectorConfig) {
    p.signalTrend == Approaching && SignalOr(raw.signal) > ApproachingThreshold(cfg)
  }

  /** The alerts ROAM raises for a watchlisted profile and for one approaching:
      a CRITICAL with a watchlist-hit notification for the first, then a
      WARNING for the second; nothing else changes. */
  function RoamAlerts(e: Engine, p: DeviceProfile, raw: Observation, now: int,
                      cfg: DetectorConfig, notif: bool): (r: Engine)
    ensures r == e.(alerts := r.alerts, calls := r.calls)
    ensures r.alerts == PushAll(e.alerts,
      (if p.isWatchlisted then [Alert(Critical, WatchlistDetected(DisplayName(p), raw.mac, raw.signal), now)] else [])
      + (if RoamApproaching(p, raw, cfg) then [Alert(Warning, ApproachingDevice(DisplayName(p), raw.mac, raw.signal), now)] else []))
    ensures r.calls == e.calls
      + (if p.isWatchlisted && notif then [WatchlistHitCall(p.deviceLabel, raw.mac, raw.signal, p.notes)] else [])
    ensures Inv(e) ==> Inv(r) && Grows(e, r)
  {
    RoamAlertsPushAll(e.alerts, p, raw, now, cfg);
    var e1 :=
      if p.isWatchlisted then
        Notify(Fire(e, Critical, WatchlistDetected(DisplayName(p), raw.mac, raw.signal), now), notif,
               WatchlistHitCall(p.deviceLabel, raw.mac, raw.signal, p.notes))
      else e;
    GrowsTrans(e, e1, Fire(e1, Warning, ApproachingDevice(DisplayName(p), raw.mac, raw.signal), now));
    if RoamApproaching(p, raw, cfg) then
      Fire(e1, Warning, ApproachingDevice(DisplayName(p), raw.mac, raw.signal), now)
    else e1
  }

  /** Pushing none, one or both ROAM alerts in turn is `PushAll` of them. */
  lemma RoamAlertsPushAll(log: seq<Alert>, p: DeviceProfile, raw: Observation, now: int, cfg: DetectorConfig)
    ensures var w := Alert(Critical, WatchlistDetected(DisplayName(p), raw.mac, raw.signal), now);
      var a := Alert(Warning, ApproachingDevice(DisplayName(p), raw.mac, raw.signal), now);
      var log1 := if p.isWatchlisted then Pushed(log, w) else log;
      PushAll(log, (if p.isWatchlisted then [w] else []) + (if RoamApproaching(p, raw, cfg) then [a] else []))
        == if RoamApproaching(p, raw, cfg) then Pushed(log1, a) else log1
  {
    var w := Alert(Critical, WatchlistDetected(DisplayName(p), raw.mac, raw.signal), now);
    var a := Alert(Warning, ApproachingDevice(DisplayName(p), raw.mac, raw.signal), now);
    assert PushAll(log, [w]) == Pushed(PushAll(log, []), w);
    assert [w, a][..1] == [w];
  }

  /** The body of the `_scan` row loop. */
  function RoamRow(e: Engine, raw: Observation, now: int, score: DeviceProfile -> real,
                   cfg: DetectorConfig, notif: bool): (r: Engine)
    ensures Inv(e) && CleanNames(raw.ssids) ==> Inv(r) && Grows(e, r)
  {
    var mac := raw.mac;
    var e1 := Update(e, raw, "ROAM", now);
    var p := RoamTouched(e1.devices[mac], score);
    var e2 := Put(e1, mac, p);
    var e3 := RoamAlerts(e2, p, raw, now, cfg, notif);
    var e4 := if "HOME" in p.modesSeenIn then CrossModeStep(e3, mac, "ROAM", now, notif) else e3;
    GrowsTrans(e, e1, e2);
    GrowsTrans(e, e2, e3);
    GrowsTrans(e, e3, e4);
    e4
  }

  /** The `_scan` row loop over the first rows. */
  function RoamRows(e: Engine, rows: seq<Observation>, now: int, score: DeviceProfile -> real,
                    cfg: DetectorConfig, notif: bool): (r: Engine)
    ensures Inv(e) && CleanRows(rows) ==> Inv(r) && Grows(e, r)
    decreases |rows|
  {
    if rows == [] then e
    else
      CleanRowsSplit(rows);
      var mid := RoamRows(e, rows[..|rows| - 1], now, score, cfg, notif);
      var r := RoamRow(mid, rows[|rows| - 1], now, score, cfg, notif);
      GrowsTrans(e, mid, r);
      r
  }

  /** The addresses whose profile is tagged with mode HOME. */
  function HomeMacs(devices: map<string, DeviceProfile>): (r: set<string>)
    ensures forall m :: m in r <==> m in devices && "HOME" in devices[m].modesSeenIn
  {
    set m | m in devices && "HOME" in devices[m].modesSeenIn
  }

  /** A ROAM update never adds or removes the HOME tag of any address. */
  lemma UpdateKeepsHomeMacs(e: Engine, raw: Observation, now: int)
    ensures HomeMacs(Update(e, raw, "ROAM", now).devices) == HomeMacs(e.devices)
  {
    UpdateKeepsHome(e, raw, now);
  }

  /** Nor does replacing a profile by one with the same modes. */
  lemma PutKeepsHomeMacs(devices: map<string, DeviceProfile>, mac: string, p: DeviceProfile)
    requires mac in devices && p.modesSeenIn == devices[mac].modesSeenIn
    ensures HomeMacs(devices[mac := p]) == HomeMacs(devices)
  {
  }

  /** The `poi_macs` a scan collects over its first `n` rows, given the
      addresses `home` seen at home when it began. */
  function RoamPois(home: set<string>, rows: seq<Observation>, n: nat): (r: set<string>)
    requires n <= |rows|
    ensures forall m :: m in r <==> m !in home && exists i :: 0 <= i < n && rows[i].mac == m
  {
    if n == 0 then {}
    else RoamPois(home, rows, n - 1) + if rows[n - 1].mac !in home then {rows[n - 1].mac} else {}
  }

  /** One more row: the address joins exactly when it was not seen at home. */
  lemma RoamPoisStep(home: set<string>, rows: seq<Observation>, i: nat, pois: set<string>, joined: bool)
    requires i < |rows| && pois == RoamPois(home, rows, i) && (joined <==> rows[i].mac !in home)
    ensures (if joined then pois + {rows[i].mac} else pois) == RoamPois(home, rows, i + 1)
  {
  }

  /** The persons of interest of a scan are exactly the scanned addresses
      that were not seen at home when the scan began. */
  lemma {:induction false} RoamPoisAre(home: set<string>, rows: seq<Observation>, n: nat)
    requires n <= |rows|
    ensures forall m :: m in RoamPois(home, rows, n) <==> m in Macs(rows[..n]) && m !in home
  {
    if n > 0 {
      RoamPoisAre(home, rows, n - 1);
      assert rows[..n][..n - 1] == rows[..n - 1];
    }
  }

  /** One more row of the `_scan` loop: one more step of each fold. */
  lemma RoamRowsSnoc(e: Engine, rows: seq<Observation>, i: int, now: int, score: DeviceProfile -> real,
                     cfg: DetectorConfig, notif: bool)
    requires 0 <= i < |rows|
    ensures RoamRows(e, rows[..i + 1], now, score, cfg, notif)
      == RoamRow(RoamRows(e, rows[..i], now, score, cfg, notif), rows[i], now, score, cfg, notif)
  {
    assert rows[..i + 1][..i] == rows[..i];
  }


  /** One `_scan` of ROAM mode (followed, in the continuous loop, by the
      announcement of the next one), with the persons of interest found. */
  function RoamScan(e: Engine, files: seq<seq<BackendRow>>, now: int, score: DeviceProfile -> real,
                    cfg: DetectorConfig, notif: bool, continuous: bool): (r: (Engine, set<string>))
    ensures Inv(e) ==> Inv(r.0) && Grows(e, r.0)
  {
    ParsedRowsClean(Flatten(files));
    var rows := ParseRows(Flatten(files));
    var (e1, pois) :=
      if files == [] then (Fire(e, Warning, NoRecentDatabases, now), {})
      else (RoamRows(e, rows, now, score, cfg, notif), RoamPois(HomeMacs(e.devices), rows, |rows|));
    if continuous then
      GrowsTrans(e, e1, Fire(e1, Info, NextRoamScan(RoamInterval(cfg)), now));
      (Fire(e1, Info, NextRoamScan(RoamInterval(cfg)), now), pois)
    else (e1, pois)
  }

  // ─────────────────────── DOORBELL ───────────────────────

  /** The state the DOORBELL loop keeps between iterations. */
  datatype DoorbellSession = DoorbellSession(prevPresent: set<string>, unknownStreak: map<string, int>)

  /** The state of one iteration while it reads rows. */
  datatype DoorbellScan = DoorbellScan(engine: Engine, streak: map<string, int>, current: set<string>)

  /** A row is recent enough unless its non-zero last-seen epoch is more
      than three scan intervals old. */
  predicate Recent(raw: Observation, now: int, interval: int) {
    !(Truthy(raw.lastTime) && now - raw.lastTime.value > interval * 3)
  }

  /** The alert (and notification) for an address that was not present in
      the previous iteration, with the unknown streak afterwards. */
  function Arrived(e: Engine, streak: map<string, int>, p: DeviceProfile, raw: Observation, now: int,
                   cfg: DetectorConfig, notif: bool): (r: (Engine, map<string, int>))
    ensures r.0 == e.(alerts := r.0.alerts, calls := r.0.calls)
    ensures Inv(e) ==> Inv(r.0) && Grows(e, r.0)
    ensures p.deviceLabel != "" ==> r.1 == streak
    ensures p.deviceLabel == "" ==> r.1 == streak[raw.mac := (if raw.mac in streak then streak[raw.mac] else 0) + 1]
    // a labeled device: an INFO arrival, notified when the config asks for it
    ensures p.deviceLabel != "" ==>
      && r.0.alerts == Pushed(e.alerts, Alert(Info, Arrival(p.deviceLabel, raw.mac), now))
      && r.0.calls == e.calls
           + (if notif && cfg.knownArrivalNotify == Some(true) then [ArrivalCall(p.deviceLabel, raw.mac, raw.signal)] else [])
    // an unlabeled watchlisted device: a CRITICAL and a watchlist-hit notification
    ensures p.deviceLabel == "" && p.isWatchlisted ==>
      && r.0.alerts == Pushed(e.alerts, Alert(Critical, WatchlistArrived(raw.mac, p.manufacturer, raw.signal), now))
      && r.0.calls == e.calls + (if notif then [WatchlistHitCall(p.deviceLabel, raw.mac, raw.signal, p.notes)] else [])
    // any other device: INFO, or WARNING from its third arrival in the streak on
    ensures p.deviceLabel == "" && !p.isWatchlisted ==>
      && r.0.alerts == Pushed(e.alerts, Alert(if r.1[raw.mac] >= 3 then Warning else Info,
                                              UnknownDevice(raw.mac, p.manufacturer, raw.signal, r.1[raw.mac]), now))
      && r.0.calls == e.calls
  {
    var mac := raw.mac;
    if p.deviceLabel != "" then
      var e1 := Fire(e, Info, Arrival(p.deviceLabel, mac), now);
      if cfg.knownArrivalNotify == Some(true) then
        (Notify(e1, notif, ArrivalCall(p.deviceLabel, mac, raw.signal)), streak)
      else (e1, streak)
    else
      var n := (if mac in streak then streak[mac] else 0) + 1;
      if p.isWatchlisted then
        var e1 := Fire(e, Critical, WatchlistArrived(mac, p.manufacturer, raw.signal), now);
        (Notify(e1, notif, WatchlistHitCall(p.deviceLabel, mac, raw.signal, p.notes)), streak[mac := n])
      else
        (Fire(e, if n >= 3 then Warning else Info, UnknownDevice(mac, p.manufacturer, raw.signal, n), now),
         streak[mac := n])
  }

  /** The profile after DOORBELL's own edit on top of `_update_profile`: the
      score recomputed. */
  function DoorbellTouched(p: DeviceProfile, score: DeviceProfile -> real): (r: DeviceProfile)
    ensures Persists(p, r) && r == p.(encounterScore := score(p))
    ensures WellFormed(p) ==> WellFormed(r)
  {
    PersistsRefl(p);
    p.(encounterScore := score(p))
  }

  /** What the DOORBELL row loop does with a recent row: update and score the
      profile, announce an arrival, check lingering; with the unknown streak
      afterwards. */
  function DoorbellVisit(e: Engine, streak: map<string, int>, prev: set<string>, raw: Observation, now: int,
                         score: DeviceProfile -> real, cfg: DetectorConfig, notif: bool): (r: (Engine, map<string, int>))
    ensures Inv(e) && CleanNames(raw.ssids) ==> Inv(r.0) && Grows(e, r.0)
    ensures r.1.Keys <= streak.Keys + {raw.mac}
  {
    var mac := raw.mac;
    var e1 := Update(e, raw, "DOORBELL", now);
    var p := DoorbellTouched(e1.devices[mac], score);
    var e2 := Put(e1, mac, p);
    var (e3, streak') := if mac in prev then (e2, streak) else Arrived(e2, streak, p, raw, now, cfg, notif);
    var e4 := if p.deviceLabel == "" then LingerStep(e3, mac, p.ssids, raw.signal, now, LingerMinutes(cfg), notif) else e3;
    GrowsTrans(e, e1, e2);
    GrowsTrans(e, e2, e3);
    GrowsTrans(e, e3, e4);
    (e4, streak')
  }

  /** The body of the DOORBELL row loop. */
  function DoorbellRow(s: DoorbellScan, prev: set<string>, raw: Observation, now: int,
                       score: DeviceProfile -> real, cfg: DetectorConfig, notif: bool): (r: DoorbellScan)
    ensures Inv(s.engine) && CleanNames(raw.ssids) ==> Inv(r.engine) && Grows(s.engine, r.engine)
    ensures Recent(raw, now, DoorbellInterval(cfg)) ==> r.current == s.current + {raw.mac}
    ensures !Recent(raw, now, DoorbellInterval(cfg)) ==> r == s
    ensures r.streak.Keys <= s.streak.Keys + r.current
  {
    if !Recent(raw, now, DoorbellInterval(cfg)) then s
    else
      var v := DoorbellVisit(s.engine, s.streak, prev, raw, now, score, cfg, notif);
      DoorbellScan(v.0, v.1, s.current + {raw.mac})
  }

  /** The DOORBELL row loop over the first rows. */
  function DoorbellRows(s: DoorbellScan, prev: set<string>, rows: seq<Observation>, now: int,
                        score: DeviceProfile -> real, cfg: DetectorConfig, notif: bool): (r: DoorbellScan)
    ensures Inv(s.engine) && CleanRows(rows) ==> Inv(r.engine) && Grows(s.engine, r.engine)
    ensures r.current == s.current + RecentMacs(rows, now, DoorbellInterval(cfg))
    ensures r.streak.Keys <= s.streak.Keys + r.current
    decreases |rows|
  {
    if rows == [] then s
    else
      CleanRowsSplit(rows);
      var mid := DoorbellRows(s, prev, rows[..|rows| - 1], now, score, cfg, notif);
      var r := DoorbellRow(mid, prev, rows[|rows| - 1], now, score, cfg, notif);
      GrowsTrans(s.engine, mid.engine, r.engine);
      r
  }

  /** One pass of the departure loop: announce the departure under the
      profile's label (or the address), forget the unknown streak and the
      linger state of the address. */
  function Depart(e: Engine, streak: map<string, int>, mac: string, now: int): (r: (Engine, map<string, int>))
    ensures r.0.devices == e.devices && r.0.order == e.order
    ensures r.0.linger == Departed(e.linger, {mac}) && r.1 == streak - {mac}
    ensures r.0.alerts == Pushed(e.alerts, Alert(Info, Departure(if IsLabeled(e, mac) then e.devices[mac].deviceLabel else mac), now))
    ensures r.0 == e.(linger := r.0.linger, alerts := r.0.alerts)
    ensures Inv(e) ==> Inv(r.0) && Grows(e, r.0)
  {
    var name := if IsLabeled(e, mac) then e.devices[mac].deviceLabel else mac;
    (Fire(e, Info, Departure(name), now).(linger := Departed(e.linger, {mac})), streak - {mac})
  }

  /** One more row of the DOORBELL loop: one more step of the fold. */
  lemma DoorbellRowsSnoc(s: DoorbellScan, prev: set<string>, rows: seq<Observation>, i: int, now: int,
                         score: DeviceProfile -> real, cfg: DetectorConfig, notif: bool)
    requires 0 <= i < |rows|
    ensures DoorbellRows(s, prev, rows[..i + 1], now, score, cfg, notif)
      == DoorbellRow(DoorbellRows(s, prev, rows[..i], now, score, cfg, notif), prev, rows[i], now, score, cfg, notif)
  {
    assert rows[..i + 1][..i] == rows[..i];
  }

  /** The departure loop, over the departed addresses in the order visited. */
  function Departures(e: Engine, streak: map<string, int>, gone: seq<string>, now: int): (r: (Engine, map<string, int>))
    ensures r.0.devices == e.devices && r.0.order == e.order
    ensures r.0.linger == Departed(e.linger, set m | m in gone)
    ensures r.1 == streak - set m | m in gone
    ensures Inv(e) ==> Inv(r.0) && Grows(e, r.0)
    decreases |gone|
  {
    if gone == [] then (e, streak)
    else
      var before := gone[..|gone| - 1];
      var mid := Departures(e, streak, before, now);
      var mac := gone[|gone| - 1];
      var r := Depart(mid.0, mid.1, mac, now);
      assert gone == before + [mac];
      assert (set m | m in gone) == (set m | m in before) + {mac};
      DepartedTwice(e.linger, (set m | m in before), mac);
      GrowsTrans(e, mid.0, r.0);
      r
  }

  /** Forgetting a set of addresses, then one more, forgets their union. */
  lemma DepartedTwice(l: LingerState, gone: set<string>, mac: string)
    ensures Departed(Departed(l, gone), {mac}) == Departed(l, gone + {mac})
  {
    assert l.firstSeen - gone - {mac} == l.firstSeen - (gone + {mac});
  }

  /** One more departure: one more step of the fold. */
  lemma DeparturesSnoc(e: Engine, streak: map<string, int>, gone: seq<string>, mac: string, now: int)
    ensures var mid := Departures(e, streak, gone, now);
      Departures(e, streak, gone + [mac], now) == Depart(mid.0, mid.1, mac, now)
  {
    assert (gone + [mac])[..|gone|] == gone;
  }

  /** The addresses of the rows that pass the age filter. */
  function RecentMacs(rows: seq<Observation>, now: int, interval: int): (r: set<string>)
    ensures r <= Macs(rows)
    decreases |rows|
  {
    if rows == [] then {}
    else
      var raw := rows[|rows| - 1];
      RecentMacs(rows[..|rows| - 1], now, interval) + if Recent(raw, now, interval) then {raw.mac} else {}
  }

  /** The rows of one iteration, before departures. */
  function DoorbellScanOf(e: Engine, session: DoorbellSession, rows: seq<Observation>, now: int,
                          score: DeviceProfile -> real, cfg: DetectorConfig, notif: bool): DoorbellScan
  {
    DoorbellRows(DoorbellScan(e, session.unknownStreak, {}), session.prevPresent, rows, now, score, cfg, notif)
  }

  /** `run_doorbell_mode` start: announce, and the loop's initial state. */
  function StartDoorbell(e: Engine, now: int): (r: (Engine, DoorbellSession))
    ensures r.0 == e.(mode := "DOORBELL", alerts := Pushed(e.alerts, Alert(Info, DoorbellStarted, now)))
    ensures r.1 == DoorbellSession({}, map[])
    ensures Inv(e) ==> Inv(r.0) && Grows(e, r.0)
  {
    (Fire(e.(mode := "DOORBELL"), Info, DoorbellStarted, now), DoorbellSession({}, map[]))
  }

  /** One iteration of the DOORBELL loop; `gone` is the order in which the
      set difference `prev_present - current_macs` was visited. */
  function DoorbellIteration(e: Engine, session: DoorbellSession, files: seq<seq<BackendRow>>, now: int,
                             score: DeviceProfile -> real, cfg: DetectorConfig, notif: bool,
                             gone: seq<string>): (r: (Engine, DoorbellSession))
    ensures Inv(e) ==> Inv(r.0) && Grows(e, r.0)
  {
    var rows := ParseRows(Flatten(files));
    ParsedRowsClean(Flatten(files));
    var scan := DoorbellScanOf(e, session, rows, now, score, cfg, notif);
    var (e1, streak) := Departures(scan.engine, scan.streak, gone, now);
    GrowsTrans(e, scan.engine, e1);
    (e1.(present := scan.current), DoorbellSession(scan.current, streak))
  }

  // ─────────────────────── WATCHLIST ──────────────────────

  /** In a reachable state the listing holds exactly the stored profiles, one
      per address. */
  lemma ListedIsRegistry(e: Engine)
    requires Inv(e)
    ensures forall p :: p in Listed(e.devices, e.order) <==> p in e.devices.Values
  {
    forall p | p in e.devices.Values
      ensures p in Listed(e.devices, e.order)
    {
      var k :| k in e.devices && e.devices[k] == p;
      var i :| 0 <= i < |e.order| && e.order[i] == k;
    }
  }

  /** `get_watchlist`. */
  function WatchlistOf(devices: map<string, DeviceProfile>, order: seq<string>): (r: seq<DeviceProfile>)
    ensures forall p :: p in r <==> p in Listed(devices, order) && OnWatchlist(p)
  {
    Filter(Listed(devices, order), OnWatchlist)
  }

  /** `{p.mac for p in watchlist}`. */
  function MacsOf(profiles: seq<DeviceProfile>): (r: set<string>)
    ensures forall i :: 0 <= i < |profiles| ==> profiles[i].mac in r
    ensures forall m :: m in r ==> exists i :: 0 <= i < |profiles| && profiles[i].mac == m
  {
    set p | p in profiles :: p.mac
  }

  /** Every watchlisted address has a profile stored under it. */
  lemma WatchMacsRegistered(e: Engine)
    requires Inv(e)
    ensures MacsOf(WatchlistOf(e.devices, e.order)) <= e.devices.Keys
  {
    forall m | m in MacsOf(WatchlistOf(e.devices, e.order))
      ensures m in e.devices
    {
      var w := WatchlistOf(e.devices, e.order);
      var j :| 0 <= j < |w| && w[j].mac == m;
      assert w[j] in w;
      var i :| 0 <= i < |e.order| && e.order[i] in e.devices && e.devices[e.order[i]] == w[j];
    }
  }

  /** The body of the WATCHLIST row loop: a row of a watchlisted address
      raises a CRITICAL and a watchlist-hit notification. */
  function WatchlistRow(e: Engine, wmacs: set<string>, raw: Observation, now: int, notif: bool): (r: (Engine, bool))
    ensures r.0.devices == e.devices && r.0.order == e.order
    ensures r.0 == e.(alerts := r.0.alerts, calls := r.0.calls)
    ensures Inv(e) ==> Inv(r.0) && Grows(e, r.0)
    ensures r.1 <==> raw.mac in wmacs
    ensures raw.mac !in wmacs ==> r.0 == e
    ensures raw.mac in wmacs && raw.mac in e.devices ==>
      var p := e.devices[raw.mac];
      && r.0.alerts == Pushed(e.alerts, Alert(Critical, WatchlistSighting(DisplayName(p), p.mac, raw.signal, p.lastSeen), now))
      && r.0.calls == e.calls + (if notif then [WatchlistHitCall(p.deviceLabel, p.mac, raw.signal, p.notes)] else [])
  {
    if raw.mac in wmacs && raw.mac in e.devices then
      var p := e.devices[raw.mac];
      var e1 := Fire(e, Critical, WatchlistSighting(DisplayName(p), p.mac, raw.signal, p.lastSeen), now);
      GrowsTrans(e, e1, Notify(e1, notif, WatchlistHitCall(p.deviceLabel, p.mac, raw.signal, p.notes)));
      (Notify(e1, notif, WatchlistHitCall(p.deviceLabel, p.mac, raw.signal, p.notes)), true)
    else (e, raw.mac in wmacs)
  }

  /** The WATCHLIST row loop over the first rows, with the addresses found. */
  function WatchlistRows(e: Engine, wmacs: set<string>, rows: seq<Observation>, now: int, notif: bool): (r: (Engine, set<string>))
    ensures r.0.devices == e.devices && r.0.order == e.order
    ensures Inv(e) ==> Inv(r.0) && Grows(e, r.0)
    ensures r.1 == set o | o in rows && o.mac in wmacs :: o.mac
    decreases |rows|
  {
    if rows == [] then (e, {})
    else
      var mid := WatchlistRows(e, wmacs, rows[..|rows| - 1], now, notif);
      var raw := rows[|rows| - 1];
      var (e1, hit) := WatchlistRow(mid.0, wmacs, raw, now, notif);
      GrowsTrans(e, mid.0, e1);
      assert rows == rows[..|rows| - 1] + [raw];
      (e1, if hit then mid.1 + {raw.mac} else mid.1)
  }

  /** One more row of the WATCHLIST loop: one more step of the fold. */
  lemma WatchlistRowsSnoc(e: Engine, wmacs: set<string>, rows: seq<Observation>, i: int, now: int, notif: bool)
    requires 0 <= i < |rows|
    ensures var mid := WatchlistRows(e, wmacs, rows[..i], now, notif);
      var s := WatchlistRow(mid.0, wmacs, rows[i], now, notif);
      WatchlistRows(e, wmacs, rows[..i + 1], now, notif) == (s.0, if s.1 then mid.1 + {rows[i].mac} else mid.1)
  {
    assert rows[..i + 1][..i] == rows[..i];
  }

  /** The WATCHLIST sweep over the files of the last 48 hours, with the
      watchlisted addresses it found. */
  function WatchlistSweep(e: Engine, files: seq<seq<BackendRow>>, now: int, notif: bool): (r: (Engine, set<string>))
    ensures Inv(e) ==> Inv(r.0) && Grows(e, r.0)
  {
    ModeKeeps(e, "WATCHLIST");
    var e0 := e.(mode := "WATCHLIST");
    var wl := WatchlistOf(e0.devices, e0.order);
    if wl == [] then
      GrowsTrans(e, e0, Fire(e0, Info, WatchlistEmpty, now));
      (Fire(e0, Info, WatchlistEmpty, now), {})
    else
      var e1 := Fire(e0, Info, WatchlistMonitoring(|wl|), now);
      var r := WatchlistRows(e1, MacsOf(wl), ParseRows(Flatten(files)), now, notif);
      GrowsTrans(e, e0, e1);
      GrowsTrans(e, e1, r.0);
      r
  }

  // ─────────────────────── registry edits ─────────────────

  /** The profile under `mac`, a default one when the address is new. */
  function ProfileOrNew(e: Engine, mac: string): DeviceProfile {
    if mac in e.devices then e.devices[mac] else NewProfile(mac)
  }

  /** An edit of the label, group, notes or watchlist flag keeps a profile
      well formed and loses nothing of it. */
  lemma EditKeeps(e: Engine, mac: string, p: DeviceProfile)
    requires p == ProfileOrNew(e, mac).(deviceLabel := p.deviceLabel, group := p.group, notes := p.notes,
                                        isWatchlisted := p.isWatchlisted)
    ensures Inv(e) ==> p.mac == mac && WellFormed(p) && (mac in e.devices ==> Persists(e.devices[mac], p))
  {
    if Inv(e) && mac in e.devices {
      PersistsRefl(e.devices[mac]);
    }
  }

  /** `label_device`. */
  function LabelDevice(e: Engine, mac: string, deviceLabel: string, group: string, notes: string, now: int): (r: Engine)
    ensures mac in e.devices ==>
      r.devices == e.devices[mac := Profiles.Labeled(e.devices[mac], deviceLabel, group, notes)] && r.order == e.order
    ensures mac !in e.devices ==>
      r.devices == e.devices[mac := Profiles.Labeled(NewProfile(mac), deviceLabel, group, notes)] && r.order == e.order + [mac]
    ensures r.alerts == Pushed(e.alerts, Alert(Info, Event.Labeled(mac, deviceLabel, group), now))
    ensures r == e.(devices := r.devices, order := r.order, alerts := r.alerts)
    ensures Inv(e) ==> Inv(r) && Grows(e, r)
  {
    var p := Profiles.Labeled(ProfileOrNew(e, mac), deviceLabel, group, notes);
    EditKeeps(e, mac, p);
    Fire(Put(e, mac, p), Info, Event.Labeled(mac, deviceLabel, group), now)
  }

  /** `add_to_watchlist`. */
  function AddToWatchlist(e: Engine, mac: string, reason: string, now: int): (r: Engine)
    ensures mac in e.devices ==>
      r.devices == e.devices[mac := Watchlisted(e.devices[mac], reason)] && r.order == e.order
    ensures mac !in e.devices ==>
      r.devices == e.devices[mac := Watchlisted(NewProfile(mac), reason)] && r.order == e.order + [mac]
    ensures r.alerts == Pushed(e.alerts, Alert(Warning, WatchlistAdded(mac, reason), now))
    ensures r == e.(devices := r.devices, order := r.order, alerts := r.alerts)
    ensures Inv(e) ==> Inv(r) && Grows(e, r)
  {
    var p := Watchlisted(ProfileOrNew(e, mac), reason);
    EditKeeps(e, mac, p);
    Fire(Put(e, mac, p), Warning, WatchlistAdded(mac, reason), now)
  }

  /** `remove_from_watchlist`. */
  function RemoveFromWatchlist(e: Engine, mac: string, now: int): (r: Engine)
    ensures mac !in e.devices ==> r == e
    ensures mac in e.devices ==>
      && r.devices == e.devices[mac := Unwatchlisted(e.devices[mac])]
      && r.alerts == Pushed(e.alerts, Alert(Info, WatchlistRemoved(mac), now))
    ensures r == e.(devices := r.devices, alerts := r.alerts)
    ensures Inv(e) ==> Inv(r) && Grows(e, r)
  {
    if mac in e.devices then
      var p := Unwatchlisted(e.devices[mac]);
      EditKeeps(e, mac, p);
      Fire(Put(e, mac, p), Info, WatchlistRemoved(mac), now)
    else e
  }

  // ─────────────────────── queries ────────────────────────

  function Score(p: DeviceProfile): real { p.encounterScore }

  predicate IsVisitor(p: DeviceProfile) { "HOME" in p.modesSeenIn || p.homeEncounters > 0 }

  predicate IsPersonOfInterest(p: DeviceProfile) { "HOME" !in p.modesSeenIn && p.roamEncounters > 0 }

  /** The home visitors among the stored profiles, in registry order. */
  function Visitors(devices: map<string, DeviceProfile>, order: seq<string>): (c: seq<DeviceProfile>)
    ensures forall p :: p in c <==> p in Listed(devices, order) && IsVisitor(p)
  {
    Filter(Listed(devices, order), IsVisitor)
  }

  /** The profiles seen roaming and never at home, in registry order. */
  function Roamers(devices: map<string, DeviceProfile>, order: seq<string>): (c: seq<DeviceProfile>)
    ensures forall p :: p in c <==> p in Listed(devices, order) && IsPersonOfInterest(p)
  {
    Filter(Listed(devices, order), IsPersonOfInterest)
  }

  /** `get_top_visitors(limit)`: at most `limit` profiles, all of them home
      visitors, highest score first, and no visitor left out outscores one
      returned. */
  function TopVisitors(devices: map<string, DeviceProfile>, order: seq<string>, limit: int): (r: seq<DeviceProfile>)
    ensures limit >= 0 ==> |r| == if limit <= |Visitors(devices, order)| then limit else |Visitors(devices, order)|
    ensures multiset(r) <= multiset(Visitors(devices, order))
    ensures forall p :: p in r ==> IsVisitor(p) && p in Listed(devices, order)
    ensures SortedDesc(r, Score)
    ensures forall p, i :: p in Listed(devices, order) && IsVisitor(p) && p !in r && 0 <= i < |r| ==> Score(p) <= Score(r[i])
  {
    var candidates := Visitors(devices, order);
    var r := TopBy(candidates, Score, limit);
    LeftOutInDifference(candidates, r);
    r
  }

  /** `get_persons_of_interest(limit)`: at most `limit` profiles, all of them
      seen roaming and never at home, highest score first, and none left out
      outscores one returned. */
  function PersonsOfInterest(devices: map<string, DeviceProfile>, order: seq<string>, limit: int): (r: seq<DeviceProfile>)
    ensures limit >= 0 ==> |r| == if limit <= |Roamers(devices, order)| then limit else |Roamers(devices, order)|
    ensures multiset(r) <= multiset(Roamers(devices, order))
    ensures forall p :: p in r ==> IsPersonOfInterest(p) && p in Listed(devices, order)
    ensures SortedDesc(r, Score)
    ensures forall p, i :: p in Listed(devices, order) && IsPersonOfInterest(p) && p !in r && 0 <= i < |r| ==> Score(p) <= Score(r[i])
  {
    var candidates := Roamers(devices, order);
    var r := TopBy(candidates, Score, limit);
    LeftOutInDifference(candidates, r);
    r
  }
}
