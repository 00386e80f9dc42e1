/** `TailDetector`: the registry, the linger tracker and the mode steps as a
    class whose fields the methods update in place. Each method is proved to
    move the state exactly as the matching function of module Detection says,
    and to keep the engine invariant. */
module Detector {
  import opened Common
  import opened Observations
  import opened Profiles
  import opened Linger
  import opened Alerts
  import opened Detection

  /** `signal_history.append(reading)`, then keep the newest 20. */
  method AppendReading(history: seq<int>, reading: int) returns (h: seq<int>)
    ensures h == Recorded(history, reading)
  {
    h := history + [reading];
    if |h| > HistoryCap {
      h := h[|h| - HistoryCap..];
    }
  }

  /** The in-place part of `_update_profile` on the profile found or created:
      count the encounter, stamp last-seen, fill in a missing manufacturer,
      merge the SSIDs, record the signal, add the mode tag. */
  method Observe(base: DeviceProfile, raw: Observation, mode: string, last: int, manufacturer: string)
    returns (p: DeviceProfile)
    ensures p == Observed(base, raw, mode, last, manufacturer)
  {
    var maker := base.manufacturer;
    if maker == "" || maker == "Unknown" {
      maker := manufacturer;
    }
    var ssids := MergeInto(base.ssids, raw.ssids);
    var history := base.signalHistory;
    if raw.signal.Some? {
      history := AppendReading(history, raw.signal.value);
    }
    var modes := base.modesSeenIn;
    if mode != "" && mode !in modes {
      modes := modes + [mode];
    }
    assert modes == AddName(base.modesSeenIn, mode);
    p := base.(totalEncounters := base.totalEncounters + 1, lastSeen := Some(last), manufacturer := maker,
               ssids := ssids, signalHistory := history, modesSeenIn := modes);
  }

  class TailDetector {
    var devices: map<string, DeviceProfile>
    var order: seq<string>
    var lingerFirstSeen: map<string, int>
    var lingerAlerted: set<string>
    var currentMode: string
    var presentMacs: set<string>
    /** The calls made into the notifications module so far. */
    var calls: seq<NotifyCall>
    /** The global alert queue. */
    const bus: AlertLog
    const cfg: DetectorConfig
    /** Whether the notifications module could be imported. */
    const notif: bool

    ghost function State(): Engine
      reads this, bus
    {
      Engine(devices, order, LingerState(lingerFirstSeen, lingerAlerted), bus.entries, calls, currentMode, presentMacs)
    }

    ghost predicate Valid()
      reads this, bus
    {
      bus.Valid() && Inv(State())
    }

    /** A detector with an empty registry, in mode IDLE. */
    constructor (bus: AlertLog, cfg: DetectorConfig, notif: bool)
      requires bus.Valid()
      ensures Valid()
      ensures this.bus == bus && this.cfg == cfg && this.notif == notif
      ensures State() == Engine(map[], [], LingerState(map[], {}), bus.entries, [], "IDLE", {})
    {
      devices := map[];
      order := [];
      lingerFirstSeen := map[];
      lingerAlerted := {};
      currentMode := "IDLE";
      presentMacs := {};
      calls := [];
      this.bus := bus;
      this.cfg := cfg;
      this.notif := notif;
    }

    /** `fire_alert`: only the global queue changes. */
    method FireAlert(level: Level, ev: Event, now: int)
      requires Valid()
      modifies bus
      ensures State() == Fire(old(State()), level, ev, now)
      ensures Valid()
    {
      bus.Push(level, ev, now);
    }

    /** A call into the notifications module, when it is available. */
    method Notify(call: NotifyCall)
      requires Valid()
      modifies this
      ensures State() == Detection.Notify(old(State()), notif, call)
      ensures Valid()
    {
      if notif {
        calls := calls + [call];
      }
    }

    /** `_update_profile(raw, mode)`. */
    method UpdateProfile(raw: Observation, mode: string, now: int) returns (p: DeviceProfile)
      requires Valid() && CleanNames(raw.ssids)
      modifies this
      ensures State() == Update(old(State()), raw, mode, now)
      ensures Valid()
      ensures p == devices[raw.mac]
    {
      ghost var e0 := State();
      var mac := raw.mac;
      var manufacturer := ObservedManufacturer(raw);
      var last := if Truthy(raw.lastTime) then raw.lastTime.value else now;
      var first := if Truthy(raw.firstTime) then raw.firstTime.value else now;
      var created := mac !in devices;
      var base := if created then NewProfile(mac).(manufacturer := manufacturer, ssids := raw.ssids,
                                                   firstSeen := Some(first), lastSeen := Some(last))
                  else devices[mac];
      p := Observe(base, raw, mode, last, manufacturer);
      assert p == UpdatedProfile(Lookup(e0, mac), raw, mode, now);
      UpdateKeeps(e0, raw, mode, now);
      Store(mac, p);
    }

    /** `self.devices[mac] = profile`: a new address goes to the end of the
      registry order. */
    method Store(mac: string, p: DeviceProfile)
      requires Valid() && p.mac == mac && WellFormed(p)
      modifies this
      ensures State() == Put(old(State()), mac, p)
      ensures Valid()
    {
      ghost var e0 := State();
      if mac !in devices {
        order := order + [mac];
      }
      devices := devices[mac := p];
      assert State() == Put(e0, mac, p);
    }

    /** `calculate_signal_trend(mac)`. */
    function CalculateSignalTrend(mac: string): (t: Trend)
      reads this
      ensures mac !in devices ==> t == Unknown
      ensures mac in devices ==> t == TrendOf(devices[mac].signalHistory)
    {
      SignalTrend(devices, mac)
    }

    /** `_check_cross_mode` on the profile stored under `mac`. */
    method CheckCrossMode(mac: string, current: string, now: int)
      requires Valid() && mac in devices
      modifies this, bus
      ensures State() == CrossModeStep(old(State()), mac, current, now, notif)
      ensures Valid()
    {
      ghost var e0 := State();
      var p := devices[mac];
      var other := if current == "HOME" then "ROAM" else "HOME";
      assert other == OtherMode(current);
      if other in p.modesSeenIn && !p.crossModeDetected {
        p := p.(crossModeDetected := true);
        devices := devices[mac := p];
        assert State() == Put(e0, mac, CrossModeChecked(e0.devices[mac], current));
        var ev := CrossMode(DisplayName(p), p.mac);
        FireAlert(Critical, ev, now);
        Notify(DispatchCall(Critical, ev));
      }
    }

    /** `_check_linger(mac, ssids, signal)`. */
    method CheckLinger(mac: string, ssids: seq<string>, signal: Option<int>, now: int)
      requires Valid()
      modifies this, bus
      ensures State() == LingerStep(old(State()), mac, ssids, signal, now, LingerMinutes(cfg), notif)
      ensures Valid()
    {
      var minutes := LingerMinutes(cfg);
      if mac !in devices || devices[mac].deviceLabel == "" {
        if mac !in lingerFirstSeen {
          lingerFirstSeen := lingerFirstSeen[mac := now];
        } else {
          var elapsed := now - lingerFirstSeen[mac];
          if elapsed as real / 60.0 >= minutes && mac !in lingerAlerted {
            lingerAlerted := lingerAlerted + {mac};
            var ssid := if ssids != [] then ssids[0] else "(hidden)";
            FireAlert(Warning, Lingering(elapsed, mac, ssid, signal), now);
            Notify(LingerCall(ssid, mac, elapsed, signal));
          }
        }
      } else {
        lingerFirstSeen := lingerFirstSeen - {mac};
        lingerAlerted := lingerAlerted - {mac};
      }
    }

    // ───────────────────────── HOME ─────────────────────────

    /** HOME's own edits of the profile just updated: one more home
      encounter, the score, the trend. */
    method TouchHome(mac: string, score: DeviceProfile -> real)
      requires Valid() && mac in devices
      modifies this
      ensures State() == Put(old(State()), mac, HomeTouched(old(devices[mac]), score))
      ensures Valid()
    {
      ghost var e0 := State();
      var p := devices[mac];
      assert p.mac == mac && WellFormed(p);
      p := p.(homeEncounters := p.homeEncounters + 1);
      p := p.(encounterScore := score(p));
      p := p.(signalTrend := CalculateSignalTrend(p.mac));
      assert p == HomeTouched(e0.devices[mac], score);
      devices := devices[mac := p];
      assert State() == Put(e0, mac, p);
    }

    /** The body of the HOME row loop. */
    method HomeRow(raw: Observation, now: int, score: DeviceProfile -> real)
      requires Valid() && CleanNames(raw.ssids)
      modifies this, bus
      ensures State() == Detection.HomeRow(old(State()), raw, now, score, cfg, notif)
      ensures Valid()
    {
      var _ := UpdateProfile(raw, "HOME", now);
      TouchHome(raw.mac, score);
      CheckCrossMode(raw.mac, "HOME", now);
      CheckLinger(devices[raw.mac].mac, devices[raw.mac].ssids, raw.signal, now);
    }

    /** The HOME row loop. */
    method HomeRowsLoop(rows: seq<Observation>, now: int, score: DeviceProfile -> real)
      requires Valid() && CleanRows(rows)
      modifies this, bus
      ensures State() == HomeRows(old(State()), rows, now, score, cfg, notif)
      ensures Valid()
    {
      ghost var start := State();
      for i := 0 to |rows|
        invariant Valid()
        invariant State() == HomeRows(start, rows[..i], now, score, cfg, notif)
      {
        assert rows[i] in rows;
        HomeRowsSnoc(start, rows, i, now, score, cfg, notif);
        HomeRow(rows[i], now, score);
      }
      assert rows[..|rows|] == rows;
    }

    /** `run_home_mode` up to the table it prints, over the rows of `files`. */
    method RunHomeMode(files: seq<seq<BackendRow>>, now: int, score: DeviceProfile -> real)
      requires Valid()
      modifies this, bus
      ensures State() == RunHome(old(State()), files, now, score, cfg, notif)
      ensures Valid()
    {
      ModeKeeps(State(), "HOME");
      currentMode := "HOME";
      FireAlert(Info, HomeStarted, now);
      if files == [] {
        FireAlert(Warning, NoDatabases, now);
      } else {
        var rows := ParseKismetRows(Flatten(files));
        ParsedRowsClean(Flatten(files));
        HomeRowsLoop(rows, now, score);
      }
    }

    // ───────────────────────── ROAM ─────────────────────────

    /** `run_roam_mode` start: the mode and its announcement. */
    method StartRoamMode(hours: int, now: int)
      requires Valid()
      modifies this, bus
      ensures State() == Fire(old(State()).(mode := "ROAM"), Info, RoamStarted(hours), now)
      ensures Valid()
    {
      ModeKeeps(State(), "ROAM");
      currentMode := "ROAM";
      FireAlert(Info, RoamStarted(hours), now);
    }

    /** ROAM's own edits of the profile just updated: the score, the trend,
      and a roam encounter when it was never seen at home (`joined`). */
    method TouchRoam(mac: string, score: DeviceProfile -> real) returns (joined: bool)
      requires Valid() && mac in devices
      modifies this
      ensures State() == Put(old(State()), mac, RoamTouched(old(devices[mac]), score))
      ensures Valid()
      ensures joined <==> "HOME" !in old(devices[mac]).modesSeenIn
    {
      ghost var e0 := State();
      var p := devices[mac];
      assert p.mac == mac && WellFormed(p);
      p := p.(encounterScore := score(p));
      p := p.(signalTrend := CalculateSignalTrend(mac));
      joined := "HOME" !in p.modesSeenIn;
      if joined {
        p := p.(roamEncounters := p.roamEncounters + 1);
      }
      assert p == RoamTouched(e0.devices[mac], score);
      devices := devices[mac := p];
      assert State() == Put(e0, mac, p);
    }

    /** The watchlist and approaching alerts of a ROAM row. */
    method RoamAlerts(p: DeviceProfile, raw: Observation, now: int)
      requires Valid()
      modifies this, bus
      ensures State() == Detection.RoamAlerts(old(State()), p, raw, now, cfg, notif)
      ensures Valid()
    {
      if p.isWatchlisted {
        FireAlert(Critical, WatchlistDetected(DisplayName(p), raw.mac, raw.signal), now);
        Notify(WatchlistHitCall(p.deviceLabel, raw.mac, raw.signal, p.notes));
      }
      var strength := if raw.signal.Some? && raw.signal.value != 0 then raw.signal.value else -100;
      if p.signalTrend == Approaching && strength > ApproachingThreshold(cfg) {
        FireAlert(Warning, ApproachingDevice(DisplayName(p), raw.mac, raw.signal), now);
      }
    }

    /** The body of the `_scan` row loop; `joined` says whether the address
      was added to `poi_macs`. */
    method RoamRow(raw: Observation, now: int, score: DeviceProfile -> real) returns (joined: bool)
      requires Valid() && CleanNames(raw.ssids)
      modifies this, bus
      ensures State() == Detection.RoamRow(old(State()), raw, now, score, cfg, notif)
      ensures Valid()
      ensures joined <==> raw.mac !in HomeMacs(old(devices))
      ensures HomeMacs(devices) == HomeMacs(old(devices))
    {
      var mac := raw.mac;
      UpdateKeepsHome(State(), raw, now);
      UpdateKeepsHomeMacs(State(), raw, now);
      var _ := UpdateProfile(raw, "ROAM", now);
      PutKeepsHomeMacs(devices, mac, RoamTouched(devices[mac], score));
      joined := TouchRoam(mac, score);
      var p := devices[mac];
      RoamAlerts(p, raw, now);
      if "HOME" in p.modesSeenIn {
        PutKeepsHomeMacs(devices, mac, CrossModeChecked(devices[mac], "ROAM"));
        CheckCrossMode(mac, "ROAM", now);
      }
    }

    /** One pass of the `_scan` row loop over `rows[i]`, as one step of the
      fold; `joined` says whether the address joins `poi_macs`, which is when
      it was not seen at home as the scan began. */
    method RoamStep(ghost start: Engine, ghost home: set<string>, rows: seq<Observation>, i: int, now: int,
                    score: DeviceProfile -> real) returns (joined: bool)
      requires 0 <= i < |rows| && CleanRows(rows) && Valid()
      requires State() == RoamRows(start, rows[..i], now, score, cfg, notif)
      requires HomeMacs(devices) == home
      modifies this, bus
      ensures State() == RoamRows(start, rows[..i + 1], now, score, cfg, notif)
      ensures Valid()
      ensures HomeMacs(devices) == home
      ensures joined <==> rows[i].mac !in home
    {
      assert rows[i] in rows;
      RoamRowsSnoc(start, rows, i, now, score, cfg, notif);
      joined := RoamRow(rows[i], now, score);
    }

    /** The `_scan` row loop; returns `poi_macs`. */
    method RoamRowsLoop(rows: seq<Observation>, now: int, score: DeviceProfile -> real) returns (pois: set<string>)
      requires Valid() && CleanRows(rows)
      modifies this, bus
      ensures State() == RoamRows(old(State()), rows, now, score, cfg, notif)
      ensures Valid()
      ensures pois == RoamPois(HomeMacs(old(devices)), rows, |rows|)
    {
      ghost var start := State();
      ghost var home := HomeMacs(devices);
      pois := {};
      for i := 0 to |rows|
        invariant Valid() && HomeMacs(devices) == home
        invariant State() == RoamRows(start, rows[..i], now, score, cfg, notif)
        invariant pois == RoamPois(home, rows, i)
      {
        var joined := RoamStep(start, home, rows, i, now, score);
        RoamPoisStep(home, rows, i, pois, joined);
        if joined {
          pois := pois + {rows[i].mac};
        }
      }
      assert rows[..|rows|] == rows;
    }

    /** One `_scan` of ROAM mode, then (when continuous) the announcement of
      the next; returns the persons of interest collected. */
    method RoamScan(files: seq<seq<BackendRow>>, now: int, score: DeviceProfile -> real, continuous: bool)
      returns (pois: set<string>)
      requires Valid()
      modifies this, bus
      ensures (State(), pois) == Detection.RoamScan(old(State()), files, now, score, cfg, notif, continuous)
      ensures Valid()
    {
      if files == [] {
        FireAlert(Warning, NoRecentDatabases, now);
        pois := {};
      } else {
        var rows := ParseKismetRows(Flatten(files));
        ParsedRowsClean(Flatten(files));
        pois := RoamRowsLoop(rows, now, score);
      }
      if continuous {
        FireAlert(Info, NextRoamScan(RoamInterval(cfg)), now);
      }
    }

    // ─────────────────────── DOORBELL ───────────────────────

    /** `run_doorbell_mode` start: the mode, its announcement and the loop's
      initial session. */
    method StartDoorbellMode(now: int) returns (session: DoorbellSession)
      requires Valid()
      modifies this, bus
      ensures (State(), session) == StartDoorbell(old(State()), now)
      ensures Valid()
    {
      ModeKeeps(State(), "DOORBELL");
      currentMode := "DOORBELL";
      FireAlert(Info, DoorbellStarted, now);
      session := DoorbellSession({}, map[]);
    }

    /** DOORBELL's own edit of the profile just updated: the score. */
    method TouchDoorbell(mac: string, score: DeviceProfile -> real) returns (p: DeviceProfile)
      requires Valid() && mac in devices
      modifies this
      ensures Valid()
      ensures p == DoorbellTouched(old(devices[mac]), score)
      ensures State() == Put(old(State()), mac, p)
    {
      ghost var e0 := State();
      p := devices[mac];
      assert p.mac == mac && WellFormed(p);
      p := p.(encounterScore := score(p));
      devices := devices[mac := p];
      assert State() == Put(e0, mac, p);
    }

    /** The alert (and notification) for an address absent from the previous
      iteration; returns the unknown streak afterwards. */
    method Arrive(p: DeviceProfile, raw: Observation, streak: map<string, int>, now: int)
      returns (streak': map<string, int>)
      requires Valid()
      modifies this, bus
      ensures (State(), streak') == Arrived(old(State()), streak, p, raw, now, cfg, notif)
      ensures Valid()
    {
      var mac := raw.mac;
      streak' := streak;
      if p.deviceLabel != "" {
        FireAlert(Info, Arrival(p.deviceLabel, mac), now);
        if cfg.knownArrivalNotify == Some(true) {
          Notify(ArrivalCall(p.deviceLabel, mac, raw.signal));
        }
      } else {
        streak' := streak[mac := (if mac in streak then streak[mac] else 0) + 1];
        if p.isWatchlisted {
          FireAlert(Critical, WatchlistArrived(mac, p.manufacturer, raw.signal), now);
          Notify(WatchlistHitCall(p.deviceLabel, mac, raw.signal, p.notes));
        } else {
          var level := if streak'[mac] >= 3 then Warning else Info;
          FireAlert(level, UnknownDevice(mac, p.manufacturer, raw.signal, streak'[mac]), now);
        }
      }
    }

    /** The body of the DOORBELL row loop. */
    method DoorbellRow(raw: Observation, prev: set<string>, streak: map<string, int>, current: set<string>,
                       now: int, score: DeviceProfile -> real)
      returns (streak': map<string, int>, current': set<string>)
      requires Valid() && CleanNames(raw.ssids)
      modifies this, bus
      ensures DoorbellScan(State(), streak', current')
           == Detection.DoorbellRow(DoorbellScan(old(State()), streak, current), prev, raw, now, score, cfg, notif)
      ensures Valid()
    {
      streak', current' := streak, current;
      if Truthy(raw.lastTime) && now - raw.lastTime.value > DoorbellInterval(cfg) * 3 {
        return;
      }
      current' := current + {raw.mac};
      streak' := DoorbellVisit(raw, prev, streak, now, score);
    }

    /** A recent row of the DOORBELL loop: update and score the profile,
      announce an arrival, check lingering; returns the unknown streak. */
    method DoorbellVisit(raw: Observation, prev: set<string>, streak: map<string, int>,
                         now: int, score: DeviceProfile -> real)
      returns (streak': map<string, int>)
      requires Valid() && CleanNames(raw.ssids)
      modifies this, bus
      ensures (State(), streak') == Detection.DoorbellVisit(old(State()), streak, prev, raw, now, score, cfg, notif)
      ensures Valid()
    {
      ghost var e0 := State();
      var mac := raw.mac;
      streak' := streak;
      var _ := UpdateProfile(raw, "DOORBELL", now);
      var p := TouchDoorbell(mac, score);
      assert State() == Put(Update(e0, raw, "DOORBELL", now), mac, p);
      if mac !in prev {
        streak' := Arrive(p, raw, streak, now);
      }
      if p.deviceLabel == "" {
        CheckLinger(mac, p.ssids, raw.signal, now);
      }
    }

    /** The DOORBELL row loop; returns the unknown streak and `current_macs`. */
    method DoorbellRowsLoop(rows: seq<Observation>, prev: set<string>, streak: map<string, int>,
                            now: int, score: DeviceProfile -> real)
      returns (streak': map<string, int>, current: set<string>)
      requires Valid() && CleanRows(rows)
      modifies this, bus
      ensures DoorbellScan(State(), streak', current)
           == DoorbellRows(DoorbellScan(old(State()), streak, {}), prev, rows, now, score, cfg, notif)
      ensures Valid()
    {
      ghost var start := DoorbellScan(State(), streak, {});
      streak', current := streak, {};
      for i := 0 to |rows|
        invariant Valid()
        invariant DoorbellScan(State(), streak', current) == DoorbellRows(start, prev, rows[..i], now, score, cfg, notif)
      {
        assert rows[i] in rows;
        DoorbellRowsSnoc(start, prev, rows, i, now, score, cfg, notif);
        streak', current := DoorbellRow(rows[i], prev, streak', current, now, score);
      }
      assert rows[..|rows|] == rows;
    }

    /** One pass of the departure loop. */
    method DepartOne(mac: string, streak: map<string, int>, now: int) returns (streak': map<string, int>)
      requires Valid()
      modifies this, bus
      ensures (State(), streak') == Depart(old(State()), streak, mac, now)
      ensures Valid()
    {
      var name := if mac in devices && devices[mac].deviceLabel != "" then devices[mac].deviceLabel else mac;
      FireAlert(Info, Departure(name), now);
      streak' := streak - {mac};
      lingerFirstSeen := lingerFirstSeen - {mac};
      lingerAlerted := lingerAlerted - {mac};
    }

    /** The departure loop over `prev_present - current_macs`, visited in an
      order the model leaves open; returns the streak and that order. */
    method DeparturesLoop(departing: set<string>, streak: map<string, int>, now: int)
      returns (streak': map<string, int>, gone: seq<string>)
      requires Valid()
      modifies this, bus
      ensures (State(), streak') == Departures(old(State()), streak, gone, now)
      ensures Valid()
      ensures NoDuplicates(gone) && forall m :: m in gone <==> m in departing
    {
      ghost var start := State();
      var left := departing;
      streak', gone := streak, [];
      while left != {}
        invariant Valid()
        invariant (State(), streak') == Departures(start, streak, gone, now)
        invariant NoDuplicates(gone)
        invariant left <= departing && forall m :: m in gone <==> m in departing && m !in left
        decreases |left|
      {
        var mac :| mac in left;
        DeparturesSnoc(start, streak, gone, mac, now);
        streak' := DepartOne(mac, streak', now);
        gone := gone + [mac];
        left := left - {mac};
      }
    }

    /** One iteration of the DOORBELL loop over the rows of `files`; returns the
      session for the next iteration and the order in which the departed
      addresses were visited. */
    method DoorbellIteration(session: DoorbellSession, files: seq<seq<BackendRow>>, now: int,
                             score: DeviceProfile -> real)
      returns (next: DoorbellSession, gone: seq<string>)
      requires Valid()
      modifies this, bus
      ensures (State(), next) == Detection.DoorbellIteration(old(State()), session, files, now, score, cfg, notif, gone)
      ensures Valid()
      ensures NoDuplicates(gone)
      ensures forall m :: m in gone <==> m in session.prevPresent && m !in next.prevPresent
    {
      ghost var e0 := State();
      var rows := ParseKismetRows(Flatten(files));
      ParsedRowsClean(Flatten(files));
      var streak, current := DoorbellRowsLoop(rows, session.prevPresent, session.unknownStreak, now, score);
      ghost var scan := DoorbellScanOf(e0, session, rows, now, score, cfg, notif);
      assert scan == DoorbellScan(State(), streak, current);
      next, gone := EndDoorbellIteration(session.prevPresent, current, streak, now);
    }

    /** The end of a DOORBELL iteration: process the departures, then record
      the addresses present in this scan. */
    method EndDoorbellIteration(prev: set<string>, current: set<string>, streak: map<string, int>, now: int)
      returns (next: DoorbellSession, gone: seq<string>)
      requires Valid()
      modifies this, bus
      ensures Valid()
      ensures var d := Departures(old(State()), streak, gone, now);
        (State(), next) == (d.0.(present := current), DoorbellSession(current, d.1))
      ensures NoDuplicates(gone) && forall m :: m in gone <==> m in prev && m !in current
    {
      var streak';
      streak', gone := DeparturesLoop(prev - current, streak, now);
      ghost var e1 := State();
      presentMacs := current;
      assert State() == e1.(present := current);
      next := DoorbellSession(current, streak');
    }

    // ─────────────────────── WATCHLIST ──────────────────────

    /** The body of the WATCHLIST row loop; `hit` says whether the address
      is watchlisted. */
    method WatchlistStep(wmacs: set<string>, raw: Observation, now: int) returns (hit: bool)
      requires Valid() && wmacs <= devices.Keys
      modifies this, bus
      ensures Valid() && devices == old(devices)
      ensures (State(), hit) == WatchlistRow(old(State()), wmacs, raw, now, notif)
    {
      hit := raw.mac in wmacs;
      if hit {
        var p := devices[raw.mac];
        FireAlert(Critical, WatchlistSighting(DisplayName(p), p.mac, raw.signal, p.lastSeen), now);
        Notify(WatchlistHitCall(p.deviceLabel, p.mac, raw.signal, p.notes));
      }
    }

    /** The WATCHLIST row loop; returns the addresses found. */
    method WatchlistRowsLoop(wmacs: set<string>, rows: seq<Observation>, now: int) returns (found: set<string>)
      requires Valid() && wmacs <= devices.Keys
      modifies this, bus
      ensures (State(), found) == WatchlistRows(old(State()), wmacs, rows, now, notif)
      ensures Valid()
    {
      ghost var start := State();
      found := {};
      for i := 0 to |rows|
        invariant Valid() && wmacs <= devices.Keys
        invariant (State(), found) == WatchlistRows(start, wmacs, rows[..i], now, notif)
      {
        WatchlistRowsSnoc(start, wmacs, rows, i, now, notif);
        var hit := WatchlistStep(wmacs, rows[i], now);
        if hit {
          found := found + {rows[i].mac};
        }
      }
      assert rows[..|rows|] == rows;
    }

    /** The WATCHLIST sweep over the rows of `files`; returns the watchlisted
      addresses found. */
    method RunWatchlistMode(files: seq<seq<BackendRow>>, now: int) returns (found: set<string>)
      requires Valid()
      modifies this, bus
      ensures (State(), found) == WatchlistSweep(old(State()), files, now, notif)
      ensures Valid()
    {
      ModeKeeps(State(), "WATCHLIST");
      currentMode := "WATCHLIST";
      var watchlist := WatchlistOf(devices, order);
      if watchlist == [] {
        FireAlert(Info, WatchlistEmpty, now);
        found := {};
      } else {
        var wmacs := MacsOf(watchlist);
        WatchMacsRegistered(State());
        FireAlert(Info, WatchlistMonitoring(|watchlist|), now);
        var rows := ParseKismetRows(Flatten(files));
        found := WatchlistRowsLoop(wmacs, rows, now);
      }
    }

    // ─────────────────────── registry edits ─────────────────

    /** `label_device`. */
    method LabelDevice(mac: string, deviceLabel: string, group: string, notes: string, now: int)
      requires Valid()
      modifies this, bus
      ensures State() == Detection.LabelDevice(old(State()), mac, deviceLabel, group, notes, now)
      ensures Valid()
    {
      ghost var e0 := State();
      var created := mac !in devices;
      var p := if created then NewProfile(mac) else devices[mac];
      p := p.(deviceLabel := deviceLabel, group := group);
      if notes != "" {
        p := p.(notes := notes);
      }
      assert p == Profiles.Labeled(ProfileOrNew(e0, mac), deviceLabel, group, notes);
      assert p.mac == mac && WellFormed(p);
      devices := devices[mac := p];
      if created {
        order := order + [mac];
      }
      assert State() == Put(e0, mac, p);
      FireAlert(Info, Event.Labeled(mac, deviceLabel, group), now);
    }

    /** `add_to_watchlist`. */
    method AddToWatchlist(mac: string, reason: string, now: int)
      requires Valid()
      modifies this, bus
      ensures State() == Detection.AddToWatchlist(old(State()), mac, reason, now)
      ensures Valid()
    {
      ghost var e0 := State();
      var created := mac !in devices;
      var p := if created then NewProfile(mac) else devices[mac];
      p := p.(isWatchlisted := true, group := "watchlist");
      if reason != "" {
        p := p.(notes := "WATCHLISTED: " + reason);
      }
      assert p == Watchlisted(ProfileOrNew(e0, mac), reason);
      assert p.mac == mac && WellFormed(p);
      devices := devices[mac := p];
      if created {
        order := order + [mac];
      }
      assert State() == Put(e0, mac, p);
      FireAlert(Warning, WatchlistAdded(mac, reason), now);
    }

    /** `remove_from_watchlist`. */
    method RemoveFromWatchlist(mac: string, now: int)
      requires Valid()
      modifies this, bus
      ensures State() == Detection.RemoveFromWatchlist(old(State()), mac, now)
      ensures Valid()
    {
      if mac in devices {
        ghost var e0 := State();
        var p := devices[mac].(isWatchlisted := false);
        if p.group == "watchlist" {
          p := p.(group := "unknown");
        }
        assert p == Unwatchlisted(e0.devices[mac]);
        assert p.mac == mac && WellFormed(p);
        devices := devices[mac := p];
        assert State() == Put(e0, mac, p);
        FireAlert(Info, WatchlistRemoved(mac), now);
      }
    }

    // ─────────────────────── queries ────────────────────────

    /** `get_top_visitors(limit)`. */
    function TopVisitors(limit: int): seq<DeviceProfile>
      reads this
    {
      Detection.TopVisitors(devices, order, limit)
    }

    /** `get_persons_of_interest(limit)`. */
    function PersonsOfInterest(limit: int): seq<DeviceProfile>
      reads this
    {
      Detection.PersonsOfInterest(devices, order, limit)
    }

    /** `get_watchlist`. */
    function Watchlist(): seq<DeviceProfile>
      reads this
    {
      WatchlistOf(devices, order)
    }
  }
}
