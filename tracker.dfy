/** The GPS stalker correlator: per-address profiles built from backend rows that
    carry coordinates, counted only near one of the user's own checkpoints, with
    a new location recorded only when it is far enough from every earlier one.
    The great-circle distance is a parameter (`Distance`); the 0.5 km and 1.0 km
    thresholds stay plain comparisons. */
module Correlation {
  import opened Common
  import opened Observations
  import opened Ranking

  /** `haversine_km(lat1, lon1, lat2, lon2)`. */
  type Distance = (real, real, real, real) -> real

  /** `min_location_separation_km`. */
  const MinSeparationKm: real := 0.5
  /** A row counts only within this distance of its nearest checkpoint. */
  const MaxCheckpointKm: real := 1.0

  /** One of the user's own positions; `timestamp` is the clock reading when it
      was added. */
  datatype GPSCheckpoint = GPSCheckpoint(timestamp: int, lat: real, lon: real, locationLabel: string)

  /** One entry of `locations_seen`. A timestamp is the row's epoch, None where
      the source stores "". */
  datatype Location = Location(lat: real, lon: real, locationLabel: string, timestamp: Option<int>, signal: Option<int>)

  datatype StalkerProfile = StalkerProfile(
    mac: string, deviceLabel: string, manufacturer: string,
    ssids: seq<string>,
    locationsSeen: seq<Location>,
    uniqueLocationCount: int,
    totalHits: int,
    stalkerScore: real,
    firstSeen: Option<int>, lastSeen: Option<int>,
    notes: string)

  /** The `profiles` dict with the insertion order of its keys. */
  datatype Registry = Registry(profiles: map<string, StalkerProfile>, order: seq<string>)

  /** Distance from a position to a checkpoint. */
  function To(lat: real, lon: real, cp: GPSCheckpoint, dist: Distance): real {
    dist(lat, lon, cp.lat, cp.lon)
  }

  // ─────────────────────── nearest checkpoint ─────────────

  /** The index `min` settles on among the first n checkpoints: it keeps the
      first of equally near ones. */
  function NearestUpTo(cps: seq<GPSCheckpoint>, lat: real, lon: real, dist: Distance, n: nat): (k: nat)
    requires 1 <= n <= |cps|
    ensures k < n
    ensures forall j :: 0 <= j < n ==> To(lat, lon, cps[k], dist) <= To(lat, lon, cps[j], dist)
    ensures forall j :: 0 <= j < k ==> To(lat, lon, cps[j], dist) > To(lat, lon, cps[k], dist)
  {
    if n == 1 then 0
    else
      var k := NearestUpTo(cps, lat, lon, dist, n - 1);
      if To(lat, lon, cps[n - 1], dist) < To(lat, lon, cps[k], dist) then n - 1 else k
  }

  /** `_nearest_checkpoint`: None exactly when there is no checkpoint, and
      otherwise a checkpoint no other is nearer than, the first such. */
  function Nearest(cps: seq<GPSCheckpoint>, lat: real, lon: real, dist: Distance): (r: Option<GPSCheckpoint>)
    ensures r.None? <==> cps == []
    ensures r.Some? ==> exists k :: (0 <= k < |cps| && cps[k] == r.value
      && forall j :: 0 <= j < k ==> To(lat, lon, cps[j], dist) > To(lat, lon, r.value, dist))
    ensures r.Some? ==> forall cp :: cp in cps ==> To(lat, lon, r.value, dist) <= To(lat, lon, cp, dist)
  {
    if cps == [] then None else Some(cps[NearestUpTo(cps, lat, lon, dist, |cps|)])
  }

  // ─────────────────────── new location test ──────────────

  /** The loop of `_is_new_location` over the stored locations: false at the
      first one closer than the minimum separation. */
  function FarFrom(locs: seq<Location>, lat: real, lon: real, dist: Distance): (r: bool)
    ensures r <==> forall i :: 0 <= i < |locs| ==> dist(lat, lon, locs[i].lat, locs[i].lon) >= MinSeparationKm
  {
    if locs == [] then true
    else if dist(lat, lon, locs[0].lat, locs[0].lon) < MinSeparationKm then false
    else FarFrom(locs[1..], lat, lon, dist)
  }

  /** `_is_new_location`: true for an address without a profile, and otherwise
      false exactly when a stored location lies closer than the minimum
      separation. */
  predicate IsNew(profiles: map<string, StalkerProfile>, mac: string, lat: real, lon: real, dist: Distance) {
    mac !in profiles || FarFrom(profiles[mac].locationsSeen, lat, lon, dist)
  }

  // ─────────────────────── one row ────────────────────────

  /** `row["avg_lat"] or 0.0` and `row["avg_lon"] or 0.0`. */
  function Lat(row: BackendRow): real { row.avgLat.GetOr(0.0) }
  function Lon(row: BackendRow): real { row.avgLon.GetOr(0.0) }

  /** A timestamp column as stored: None for a falsy epoch (the source's ""). */
  function Stamp(t: Option<int>): Option<int> {
    if Truthy(t) then t else None
  }

  /** The checkpoint a row is counted at, or None when the row is skipped: its
      address is in the skip set, its coordinates are (0, 0), or no checkpoint
      lies within 1 km. */
  function Placed(cps: seq<GPSCheckpoint>, row: BackendRow, skip: set<string>, dist: Distance): (r: Option<GPSCheckpoint>)
    ensures r.Some? ==> (row.devmac !in skip && !(Lat(row) == 0.0 && Lon(row) == 0.0)
      && r.value in cps && To(Lat(row), Lon(row), r.value, dist) <= MaxCheckpointKm)
    ensures r.None? ==> (row.devmac in skip || (Lat(row) == 0.0 && Lon(row) == 0.0)
      || forall cp :: cp in cps ==> To(Lat(row), Lon(row), cp, dist) > MaxCheckpointKm)
  {
    if row.devmac in skip then None
    else if Lat(row) == 0.0 && Lon(row) == 0.0 then None
    else
      match Nearest(cps, Lat(row), Lon(row), dist)
      case None => None
      case Some(cp) => if To(Lat(row), Lon(row), cp, dist) > MaxCheckpointKm then None else Some(cp)
  }

  /** The SSIDs and manufacturer the row's blob yields. A `device` column that
      is empty, not JSON or not an object raises before anything is gathered;
      an exception while reading the SSID maps keeps the names gathered so far
      but sets the manufacturer to "Unknown". */
  function RowDetail(device: DeviceColumn): (r: (seq<string>, string))
    ensures NoDuplicates(r.0) && "" !in r.0
    ensures device.Detail? && device.blob.Blob? ==> r.0 == ExtractSsids(device.blob).0
    ensures !(device.Detail? && device.blob.Blob?) ==> r.0 == []
    ensures device.Detail? && ExtractSsids(device.blob).1 ==> r.1 == device.blob.manuf.GetOr("Unknown")
    ensures !(device.Detail? && ExtractSsids(device.blob).1) ==> r.1 == "Unknown"
  {
    match device
    case NoDetail => ([], "Unknown")
    case Malformed => ([], "Unknown")
    case Detail(blob) =>
      if blob.NotAnObject? then ([], "Unknown")
      else
        var x := ExtractSsids(blob);
        (x.0, if x.1 then blob.manuf.GetOr("Unknown") else "Unknown")
  }

  /** A fresh profile for a first sighting. */
  function NewStalker(mac: string, manufacturer: string, ssids: seq<string>, first: Option<int>, last: Option<int>): StalkerProfile {
    StalkerProfile(mac, "", manufacturer, ssids, [], 0, 0, 0.0, first, last, "")
  }

  /** The registry with a profile for the row's address, created if absent. */
  function Admitted(reg: Registry, row: BackendRow): (r: Registry)
    ensures row.devmac in r.profiles
    ensures row.devmac in reg.profiles ==> r == reg
    ensures row.devmac !in reg.profiles ==>
      && r.profiles == reg.profiles[row.devmac := NewStalker(row.devmac, RowDetail(row.device).1,
           RowDetail(row.device).0, Stamp(row.firstTime), Stamp(row.lastTime))]
      && r.order == reg.order + [row.devmac]
  {
    var mac := row.devmac;
    if mac in reg.profiles then reg
    else
      var d := RowDetail(row.device);
      Registry(reg.profiles[mac := NewStalker(mac, d.1, d.0, Stamp(row.firstTime), Stamp(row.lastTime))],
               reg.order + [mac])
  }

  /** One more hit: the counter, the last sighting and the merged SSIDs. */
  function Hit(p: StalkerProfile, row: BackendRow): (r: StalkerProfile)
    ensures r.totalHits == p.totalHits + 1 && r.lastSeen == Stamp(row.lastTime)
    ensures Extends(p.ssids, r.ssids)
    ensures forall s :: s in r.ssids <==> s in p.ssids || (s != "" && s in RowDetail(row.device).0)
    ensures r.mac == p.mac && r.firstSeen == p.firstSeen && r.manufacturer == p.manufacturer
    ensures r.locationsSeen == p.locationsSeen && r.uniqueLocationCount == p.uniqueLocationCount
  {
    p.(totalHits := p.totalHits + 1, lastSeen := Stamp(row.lastTime),
       ssids := MergeNames(p.ssids, RowDetail(row.device).0))
  }

  /** Appending a location and recounting. */
  function Located(p: StalkerProfile, loc: Location): (r: StalkerProfile)
    ensures r.uniqueLocationCount == |r.locationsSeen| == |p.locationsSeen| + 1
    ensures Extends(p.locationsSeen, r.locationsSeen) && r.locationsSeen[|p.locationsSeen|] == loc
    ensures r.totalHits == p.totalHits && r.ssids == p.ssids && r.lastSeen == p.lastSeen
  {
    p.(locationsSeen := p.locationsSeen + [loc], uniqueLocationCount := |p.locationsSeen| + 1)
  }

  /** A row counted at checkpoint `cp`: the profile found or created gets a
      hit, and the position is recorded when it is a new location. */
  function Counted(reg: Registry, row: BackendRow, cp: GPSCheckpoint, dist: Distance): (r: Registry)
    ensures row.devmac in r.profiles && r.profiles[row.devmac].lastSeen == Stamp(row.lastTime)
    ensures r.profiles[row.devmac].totalHits
      == (if row.devmac in reg.profiles then reg.profiles[row.devmac].totalHits else 0) + 1
    ensures forall k :: k != row.devmac ==> (k in r.profiles <==> k in reg.profiles)
    ensures forall k :: k != row.devmac && k in reg.profiles ==> r.profiles[k] == reg.profiles[k]
    ensures Extends(reg.order, r.order)
  {
    var mac := row.devmac;
    var a := Admitted(reg, row);
    var p := Hit(a.profiles[mac], row);
    var q := if IsNew(a.profiles, mac, Lat(row), Lon(row), dist)
             then Located(p, Location(Lat(row), Lon(row), cp.locationLabel, Stamp(row.lastTime), row.strongestSignal))
             else p;
    Registry(a.profiles[mac := q], a.order)
  }

  /** The body of `_process_db`'s row loop. */
  function RowStep(reg: Registry, cps: seq<GPSCheckpoint>, row: BackendRow, skip: set<string>, dist: Distance): Registry {
    match Placed(cps, row, skip, dist)
    case None => reg
    case Some(cp) => Counted(reg, row, cp, dist)
  }

  // ─────────────────────── invariant ──────────────────────

  /** Every later location of a list is at least the minimum separation from
      every earlier one. */
  predicate Separated(locs: seq<Location>, dist: Distance) {
    forall i, j :: 0 <= i < j < |locs| ==> dist(locs[j].lat, locs[j].lon, locs[i].lat, locs[i].lon) >= MinSeparationKm
  }

  /** What every stored profile satisfies. */
  predicate Sound(p: StalkerProfile, dist: Distance) {
    && p.uniqueLocationCount == |p.locationsSeen|
    && Separated(p.locationsSeen, dist)
    && NoDuplicates(p.ssids) && "" !in p.ssids
  }

  /** The order lists each stored address once, each profile sits under its
      own address and is sound. */
  ghost predicate Inv(reg: Registry, dist: Distance) {
    && NoDuplicates(reg.order)
    && (forall k :: k in reg.profiles <==> k in reg.order)
    && (forall k :: k in reg.profiles ==> reg.profiles[k].mac == k && Sound(reg.profiles[k], dist))
  }

  /** What a later version of a profile keeps: its address and first sighting,
      a hit counter that never falls, SSIDs and locations only appended to. */
  predicate Persists(p: StalkerProfile, q: StalkerProfile) {
    && q.mac == p.mac && q.firstSeen == p.firstSeen
    && q.totalHits >= p.totalHits
    && Extends(p.ssids, q.ssids) && Extends(p.locationsSeen, q.locationsSeen)
  }

  /** No profile is dropped, each persists, and the order only grows. */
  ghost predicate Grows(reg: Registry, r: Registry) {
    && (forall k :: k in reg.profiles ==> k in r.profiles && Persists(reg.profiles[k], r.profiles[k]))
    && Extends(reg.order, r.order)
  }

  lemma GrowsTrans(a: Registry, b: Registry, c: Registry)
    requires Grows(a, b) && Grows(b, c)
    ensures Grows(a, c)
  {
    assert c.order[..|a.order|] == c.order[..|b.order|][..|a.order|];
    forall k | k in a.profiles
      ensures Persists(a.profiles[k], c.profiles[k])
    {
      var p, q, s := a.profiles[k], b.profiles[k], c.profiles[k];
      assert s.ssids[..|p.ssids|] == s.ssids[..|q.ssids|][..|p.ssids|];
      assert s.locationsSeen[..|p.locationsSeen|] == s.locationsSeen[..|q.locationsSeen|][..|p.locationsSeen|];
    }
  }

  /** A location far enough from every stored one keeps the list separated. */
  lemma SeparatedAppend(locs: seq<Location>, loc: Location, dist: Distance)
    requires Separated(locs, dist)
    requires FarFrom(locs, loc.lat, loc.lon, dist)
    ensures Separated(locs + [loc], dist)
  {
    var s := locs + [loc];
    forall i, j | 0 <= i < j < |s|
      ensures dist(s[j].lat, s[j].lon, s[i].lat, s[i].lon) >= MinSeparationKm
    {
      if j == |locs| {
        assert s[i] == locs[i];
      } else {
        assert s[i] == locs[i] && s[j] == locs[j];
      }
    }
  }

  /** Every profile persists into itself. */
  lemma GrowsRefl(reg: Registry)
    ensures Grows(reg, reg)
  {
    assert reg.order[..|reg.order|] == reg.order;
    forall k | k in reg.profiles ensures Persists(reg.profiles[k], reg.profiles[k]) {
      var p := reg.profiles[k];
      assert p.ssids[..|p.ssids|] == p.ssids && p.locationsSeen[..|p.locationsSeen|] == p.locationsSeen;
    }
  }

  /** Creating the profile of a new address keeps the invariant. */
  lemma AdmittedInv(reg: Registry, row: BackendRow, dist: Distance)
    requires Inv(reg, dist)
    ensures Inv(Admitted(reg, row), dist) && Grows(reg, Admitted(reg, row))
  {
    GrowsRefl(reg);
    var a := Admitted(reg, row);
    if row.devmac !in reg.profiles {
      assert a.order[..|reg.order|] == reg.order;
      forall k | k in reg.profiles ensures Persists(reg.profiles[k], a.profiles[k]) {
        assert a.profiles[k] == reg.profiles[k];
      }
    }
  }

  /** Storing a later, sound version of a stored profile keeps the invariant. */
  lemma ReplaceInv(a: Registry, mac: string, q: StalkerProfile, dist: Distance)
    requires Inv(a, dist) && mac in a.profiles
    requires q.mac == mac && Sound(q, dist) && Persists(a.profiles[mac], q)
    ensures Inv(Registry(a.profiles[mac := q], a.order), dist)
    ensures Grows(a, Registry(a.profiles[mac := q], a.order))
  {
    GrowsRefl(a);
  }

  /** A hit, and a location recorded only when far from all stored ones, give a
      sound later version of a sound profile. */
  lemma HitSound(p0: StalkerProfile, row: BackendRow, loc: Location, isNew: bool, dist: Distance)
    requires Sound(p0, dist)
    requires isNew ==> FarFrom(p0.locationsSeen, loc.lat, loc.lon, dist)
    ensures var q := if isNew then Located(Hit(p0, row), loc) else Hit(p0, row);
      Sound(q, dist) && Persists(p0, q)
  {
    var p := Hit(p0, row);
    var q := if isNew then Located(p, loc) else p;
    assert q.locationsSeen[..|p0.locationsSeen|] == p0.locationsSeen;
    if isNew {
      SeparatedAppend(p0.locationsSeen, loc, dist);
    }
  }

  /** A processed row keeps the invariant, and every profile persists. */
  lemma RowStepInv(reg: Registry, cps: seq<GPSCheckpoint>, row: BackendRow, skip: set<string>, dist: Distance)
    requires Inv(reg, dist)
    ensures Inv(RowStep(reg, cps, row, skip, dist), dist)
    ensures Grows(reg, RowStep(reg, cps, row, skip, dist))
  {
    match Placed(cps, row, skip, dist)
    case None =>
      GrowsRefl(reg);
    case Some(cp) =>
      var mac := row.devmac;
      var a := Admitted(reg, row);
      AdmittedInv(reg, row, dist);
      var loc := Location(Lat(row), Lon(row), cp.locationLabel, Stamp(row.lastTime), row.strongestSignal);
      var isNew := IsNew(a.profiles, mac, Lat(row), Lon(row), dist);
      HitSound(a.profiles[mac], row, loc, isNew, dist);
      var q := if isNew then Located(Hit(a.profiles[mac], row), loc) else Hit(a.profiles[mac], row);
      ReplaceInv(a, mac, q, dist);
      GrowsTrans(reg, a, Registry(a.profiles[mac := q], a.order));
  }

  /** A row changes the registry exactly when it is counted at a checkpoint. */
  lemma RowSkipped(reg: Registry, cps: seq<GPSCheckpoint>, row: BackendRow, skip: set<string>, dist: Distance)
    ensures RowStep(reg, cps, row, skip, dist) == reg <==> Placed(cps, row, skip, dist).None?
  {
    var r := RowStep(reg, cps, row, skip, dist);
    if Placed(cps, row, skip, dist).Some? {
      var mac := row.devmac;
      var a := Admitted(reg, row);
      assert r.profiles[mac].totalHits == a.profiles[mac].totalHits + 1;
      if mac in reg.profiles {
        assert r.profiles[mac] != reg.profiles[mac];
      } else {
        assert mac in r.profiles;
      }
    }
  }

  /** A counted row raises its address's hit counter by exactly one (from 0 for
      a new address), stamps its last sighting, merges the row's SSIDs into the
      profile's, appends the row's position, the nearest checkpoint's label, its
      last-seen stamp and strongest signal exactly when the position is far from
      all stored ones, and leaves every other profile as it was. */
  lemma RowHit(reg: Registry, cps: seq<GPSCheckpoint>, row: BackendRow, skip: set<string>, dist: Distance)
    requires Placed(cps, row, skip, dist).Some?
    ensures var r := RowStep(reg, cps, row, skip, dist);
      var mac := row.devmac;
      var ssids := RowDetail(row.device).0;
      var old_ := if mac in reg.profiles then reg.profiles[mac] else NewStalker(mac, "", ssids, None, None);
      && mac in r.profiles
      && r.profiles[mac].totalHits == old_.totalHits + 1
      && r.profiles[mac].ssids == MergeNames(old_.ssids, ssids)
      && r.profiles[mac].lastSeen == Stamp(row.lastTime)
      && r.profiles[mac].locationsSeen == old_.locationsSeen +
           (if FarFrom(old_.locationsSeen, Lat(row), Lon(row), dist)
            then [Location(Lat(row), Lon(row), Placed(cps, row, skip, dist).value.locationLabel,
                           Stamp(row.lastTime), row.strongestSignal)]
            else [])
      && (FarFrom(old_.locationsSeen, Lat(row), Lon(row), dist) ==>
            r.profiles[mac].uniqueLocationCount == |old_.locationsSeen| + 1)
      && (mac in reg.profiles ==> r.order == reg.order)
      && (mac !in reg.profiles ==>
            && r.order == reg.order + [mac]
            && r.profiles[mac].manufacturer == RowDetail(row.device).1
            && r.profiles[mac].firstSeen == Stamp(row.firstTime))
      && (forall k :: k != mac ==> (k in r.profiles <==> k in reg.profiles))
      && (forall k :: k != mac && k in reg.profiles ==> r.profiles[k] == reg.profiles[k])
  {
  }

  // ─────────────────────── files and rows ─────────────────

  /** The row loop of `_process_db`. */
  function Track(reg: Registry, cps: seq<GPSCheckpoint>, rows: seq<BackendRow>, skip: set<string>, dist: Distance): (r: Registry)
    decreases |rows|
    ensures reg.profiles.Keys <= r.profiles.Keys
    ensures forall k :: k in r.profiles && k !in reg.profiles ==>
      exists i :: 0 <= i < |rows| && rows[i].devmac == k && rows[i].devmac !in skip
  {
    if rows == [] then reg
    else RowStep(Track(reg, cps, rows[..|rows| - 1], skip, dist), cps, rows[|rows| - 1], skip, dist)
  }

  lemma TrackSnoc(reg: Registry, cps: seq<GPSCheckpoint>, rows: seq<BackendRow>, i: int, skip: set<string>, dist: Distance)
    requires 0 <= i < |rows|
    ensures Track(reg, cps, rows[..i + 1], skip, dist) == RowStep(Track(reg, cps, rows[..i], skip, dist), cps, rows[i], skip, dist)
  {
    assert rows[..i + 1][..i] == rows[..i];
  }

  /** The rows of one backend file; None when the file could not be opened or
      queried (its rows are then not read). */
  type DbRows = Option<seq<BackendRow>>

  /** `for db_path in files: self._process_db(db_path, home_macs)`. */
  function TrackDbs(reg: Registry, cps: seq<GPSCheckpoint>, dbs: seq<DbRows>, skip: set<string>, dist: Distance): (r: Registry)
    decreases |dbs|
    ensures reg.profiles.Keys <= r.profiles.Keys
    ensures forall k :: k in r.profiles && k !in reg.profiles ==>
      exists i, j :: 0 <= i < |dbs| && dbs[i].Some? && 0 <= j < |dbs[i].value| && dbs[i].value[j].devmac == k
  {
    if dbs == [] then reg
    else Track(TrackDbs(reg, cps, dbs[..|dbs| - 1], skip, dist), cps, dbs[|dbs| - 1].GetOr([]), skip, dist)
  }

  lemma TrackDbsSnoc(reg: Registry, cps: seq<GPSCheckpoint>, dbs: seq<DbRows>, i: int, skip: set<string>, dist: Distance)
    requires 0 <= i < |dbs|
    ensures TrackDbs(reg, cps, dbs[..i + 1], skip, dist) == Track(TrackDbs(reg, cps, dbs[..i], skip, dist), cps, dbs[i].GetOr([]), skip, dist)
  {
    assert dbs[..i + 1][..i] == dbs[..i];
  }

  /** Any run of rows keeps the invariant, and every profile persists. */
  lemma {:induction false} TrackInv(reg: Registry, cps: seq<GPSCheckpoint>, rows: seq<BackendRow>, skip: set<string>, dist: Distance)
    requires Inv(reg, dist)
    ensures Inv(Track(reg, cps, rows, skip, dist), dist)
    ensures Grows(reg, Track(reg, cps, rows, skip, dist))
    decreases |rows|
  {
    if rows == [] {
      GrowsRefl(reg);
    } else {
      var mid := Track(reg, cps, rows[..|rows| - 1], skip, dist);
      TrackInv(reg, cps, rows[..|rows| - 1], skip, dist);
      RowStepInv(mid, cps, rows[|rows| - 1], skip, dist);
      GrowsTrans(reg, mid, RowStep(mid, cps, rows[|rows| - 1], skip, dist));
    }
  }

  /** Any run of files keeps the invariant. */
  lemma {:induction false} TrackDbsInv(reg: Registry, cps: seq<GPSCheckpoint>, dbs: seq<DbRows>, skip: set<string>, dist: Distance)
    requires Inv(reg, dist)
    ensures Inv(TrackDbs(reg, cps, dbs, skip, dist), dist)
    decreases |dbs|
  {
    if dbs != [] {
      TrackDbsInv(reg, cps, dbs[..|dbs| - 1], skip, dist);
      TrackInv(TrackDbs(reg, cps, dbs[..|dbs| - 1], skip, dist), cps, dbs[|dbs| - 1].GetOr([]), skip, dist);
    }
  }

  /** Starting from no profiles, after any files of rows every device's later
      locations are each at least the minimum separation from all its earlier
      ones, and its location count is the length of its location list. */
  lemma SeparationFromEmpty(cps: seq<GPSCheckpoint>, dbs: seq<DbRows>, skip: set<string>, dist: Distance)
    ensures var r := TrackDbs(Registry(map[], []), cps, dbs, skip, dist);
      forall k :: k in r.profiles ==>
        Separated(r.profiles[k].locationsSeen, dist) && r.profiles[k].uniqueLocationCount == |r.profiles[k].locationsSeen|
  {
    TrackDbsInv(Registry(map[], []), cps, dbs, skip, dist);
  }

  // ─────────────────────── scores and ranking ─────────────

  /** `_compute_scores` on one profile; the formula for two or more locations
      is the parameter `score`. */
  function Scored(p: StalkerProfile, score: StalkerProfile -> real): StalkerProfile {
    p.(stalkerScore := if p.uniqueLocationCount < 2 then 0.0 else score(p))
  }

  /** `_compute_scores` on the whole registry. */
  function ScoreAll(profiles: map<string, StalkerProfile>, score: StalkerProfile -> real): (r: map<string, StalkerProfile>)
    ensures r.Keys == profiles.Keys
  {
    map k | k in profiles :: Scored(profiles[k], score)
  }

  /** Scoring keeps the invariant; afterwards every profile with fewer than two
      locations scores 0.0 and nothing but the score changed. */
  lemma ScoreAllInv(reg: Registry, score: StalkerProfile -> real, dist: Distance)
    requires Inv(reg, dist)
    ensures var r := Registry(ScoreAll(reg.profiles, score), reg.order);
      && Inv(r, dist)
      && (forall k :: k in r.profiles && r.profiles[k].uniqueLocationCount < 2 ==> r.profiles[k].stalkerScore == 0.0)
      && (forall k :: k in r.profiles ==> r.profiles[k].(stalkerScore := 0.0) == reg.profiles[k].(stalkerScore := 0.0))
  {
  }

  /** The registry with the first n addresses of `order` scored. */
  ghost predicate ScoredUpTo(m: map<string, StalkerProfile>, before: map<string, StalkerProfile>, order: seq<string>, n: nat,
                             score: StalkerProfile -> real)
    requires n <= |order|
  {
    && m.Keys == before.Keys
    && forall k :: k in m ==> m[k] == if k in order[..n] then Scored(before[k], score) else before[k]
  }

  /** Scoring the next address of the order. */
  lemma ScoreStep(m: map<string, StalkerProfile>, before: map<string, StalkerProfile>, order: seq<string>, i: nat,
                  score: StalkerProfile -> real)
    requires i < |order| && NoDuplicates(order) && order[i] in m
    requires ScoredUpTo(m, before, order, i, score)
    ensures ScoredUpTo(m[order[i] := Scored(m[order[i]], score)], before, order, i + 1, score)
  {
    assert forall k :: k in order[..i + 1] <==> k in order[..i] || k == order[i];
    assert order[i] !in order[..i];
  }

  /** Once every address of the order is scored, the whole registry is. */
  lemma ScoreDone(m: map<string, StalkerProfile>, before: map<string, StalkerProfile>, order: seq<string>,
                  score: StalkerProfile -> real)
    requires forall k :: k in before <==> k in order
    requires ScoredUpTo(m, before, order, |order|, score)
    ensures m == ScoreAll(before, score)
  {
    assert order[..|order|] == order;
  }

  function StalkerScore(p: StalkerProfile): real { p.stalkerScore }

  /** The stored profiles seen at `minLocations` or more places, in registry order. */
  function Candidates(profiles: map<string, StalkerProfile>, order: seq<string>, minLocations: int): (c: seq<StalkerProfile>)
    ensures forall p :: p in c <==> p in Listed(profiles, order) && p.uniqueLocationCount >= minLocations
  {
    Filter(Listed(profiles, order), (p: StalkerProfile) => p.uniqueLocationCount >= minLocations)
  }

  /** `get_ranked_stalkers(min_locations, limit)`: at most `limit` profiles,
      each seen at `min_locations` or more places, highest score first, and
      none left out outscores one returned. */
  function RankedStalkers(profiles: map<string, StalkerProfile>, order: seq<string>, minLocations: int, limit: int): (r: seq<StalkerProfile>)
    ensures limit >= 0 ==> |r| == if limit <= |Candidates(profiles, order, minLocations)| then limit
                                  else |Candidates(profiles, order, minLocations)|
    ensures multiset(r) <= multiset(Candidates(profiles, order, minLocations))
    ensures forall p :: p in r ==> p.uniqueLocationCount >= minLocations && p in Listed(profiles, order)
    ensures SortedDesc(r, StalkerScore)
    ensures forall p, i :: (p in Listed(profiles, order) && p.uniqueLocationCount >= minLocations && p !in r && 0 <= i < |r|
      ==> p.stalkerScore <= r[i].stalkerScore)
  {
    var candidates := Candidates(profiles, order, minLocations);
    var r := TopBy(candidates, StalkerScore, limit);
    LeftOutInDifference(candidates, r);
    r
  }

  /** `{mac for mac, d in wl.items() if "HOME" in d.get("modes_seen_in", [])}`:
      the whitelist maps each address to its mode tags (an absent key read as
      []); None when the file is missing or unreadable. */
  function HomeSkipSet(whitelist: Option<map<string, seq<string>>>): (r: set<string>)
    ensures forall m :: m in r <==> whitelist.Some? && m in whitelist.value && "HOME" in whitelist.value[m]
  {
    if whitelist.None? then {} else set m | m in whitelist.value && "HOME" in whitelist.value[m]
  }
}

/** `MultiLocationTracker` as a class whose methods update its registry and
    checkpoint list in place, each proved to follow module Correlation. */
module Tracker {
  import opened Common
  import opened Observations
  import opened Correlation

  /** The device-blob part of a row of `_process_db`. */
  method ParseDevice(device: DeviceColumn) returns (ssids: seq<string>, manufacturer: string)
    ensures (ssids, manufacturer) == RowDetail(device)
  {
    if !device.Detail? || device.blob.NotAnObject? {
      return [], "Unknown";
    }
    var ok;
    ssids, ok := ExtractSsidsFrom(device.blob);
    manufacturer := if ok then device.blob.manuf.GetOr("Unknown") else "Unknown";
  }

  class MultiLocationTracker {
    var profiles: map<string, StalkerProfile>
    var order: seq<string>
    var checkpoints: seq<GPSCheckpoint>
    /** The distance function the tracker measures with. */
    const dist: Distance

    ghost function Reg(): Registry
      reads this
    {
      Registry(profiles, order)
    }

    ghost predicate Valid()
      reads this
    {
      Inv(Reg(), dist)
    }

    /** A tracker with no profiles and no checkpoints. */
    constructor (dist: Distance)
      ensures Valid() && this.dist == dist
      ensures profiles == map[] && order == [] && checkpoints == []
    {
      profiles, order, checkpoints := map[], [], [];
      this.dist := dist;
    }

    /** `add_checkpoint`: appends exactly one checkpoint, labelled
        `loc_<n+1>` when no label is given; `now` is the clock reading. */
    method AddCheckpoint(lat: real, lon: real, name: string, now: int) returns (cp: GPSCheckpoint)
      modifies this
      ensures checkpoints == old(checkpoints) + [cp]
      ensures cp.lat == lat && cp.lon == lon && cp.timestamp == now && cp.locationLabel != ""
      ensures cp.locationLabel == if name != "" then name else "loc_" + NatToString(|old(checkpoints)| + 1)
      ensures profiles == old(profiles) && order == old(order)
    {
      cp := GPSCheckpoint(now, lat, lon, if name != "" then name else "loc_" + NatToString(|checkpoints| + 1));
      checkpoints := checkpoints + [cp];
    }

    /** `_is_new_location`. */
    method IsNewLocation(mac: string, lat: real, lon: real) returns (r: bool)
      ensures r == IsNew(profiles, mac, lat, lon, dist)
    {
      if mac !in profiles {
        return true;
      }
      var locs := profiles[mac].locationsSeen;
      for i := 0 to |locs|
        invariant forall j :: 0 <= j < i ==> dist(lat, lon, locs[j].lat, locs[j].lon) >= MinSeparationKm
      {
        if dist(lat, lon, locs[i].lat, locs[i].lon) < MinSeparationKm {
          return false;
        }
      }
      return true;
    }

    /** The checks at the top of `_process_db`'s row loop: the checkpoint the
        row is counted at, or None when it is skipped. */
    method Place(row: BackendRow, skip: set<string>) returns (r: Option<GPSCheckpoint>)
      ensures r == Placed(checkpoints, row, skip, dist)
    {
      if row.devmac in skip {
        return None;
      }
      var lat, lon := row.avgLat.GetOr(0.0), row.avgLon.GetOr(0.0);
      if lat == 0.0 && lon == 0.0 {
        return None;
      }
      var nearest := Nearest(checkpoints, lat, lon, dist);
      if nearest.None? {
        return None;
      }
      var cp := nearest.value;
      if dist(lat, lon, cp.lat, cp.lon) > MaxCheckpointKm {
        return None;
      }
      return nearest;
    }

    /** Creating the profile of an address seen for the first time. */
    method Admit(row: BackendRow, ssids: seq<string>, mfr: string)
      requires (ssids, mfr) == RowDetail(row.device)
      modifies this
      ensures Reg() == Admitted(old(Reg()), row)
      ensures checkpoints == old(checkpoints)
    {
      var mac := row.devmac;
      if mac !in profiles {
        var first := if Truthy(row.firstTime) then row.firstTime else None;
        var last := if Truthy(row.lastTime) then row.lastTime else None;
        profiles := profiles[mac := NewStalker(mac, mfr, ssids, first, last)];
        order := order + [mac];
      }
    }

    /** The rest of the row loop's body, for a row counted at `cp`. */
    method Count(row: BackendRow, cp: GPSCheckpoint)
      modifies this
      ensures Reg() == Counted(old(Reg()), row, cp, dist)
      ensures checkpoints == old(checkpoints)
    {
      var mac := row.devmac;
      var lat, lon := row.avgLat.GetOr(0.0), row.avgLon.GetOr(0.0);
      var ssids, mfr := ParseDevice(row.device);
      var last := if Truthy(row.lastTime) then row.lastTime else None;
      Admit(row, ssids, mfr);
      ghost var a := Reg();
      var p := profiles[mac];
      var merged := MergeInto(p.ssids, ssids);
      p := p.(totalHits := p.totalHits + 1, lastSeen := last, ssids := merged);
      assert p == Hit(a.profiles[mac], row);
      profiles := profiles[mac := p];
      var isNew := IsNewLocation(mac, lat, lon);
      assert isNew == IsNew(a.profiles, mac, Lat(row), Lon(row), dist) by {
        assert profiles[mac].locationsSeen == a.profiles[mac].locationsSeen;
      }
      if isNew {
        p := p.(locationsSeen := p.locationsSeen + [Location(lat, lon, cp.locationLabel, last, row.strongestSignal)],
                uniqueLocationCount := |p.locationsSeen| + 1);
        profiles := profiles[mac := p];
      }
    }

    /** One row of `_process_db`. */
    method ProcessRow(row: BackendRow, skip: set<string>)
      requires Valid()
      modifies this
      ensures Valid()
      ensures Reg() == RowStep(old(Reg()), checkpoints, row, skip, dist)
      ensures checkpoints == old(checkpoints)
    {
      RowStepInv(Reg(), checkpoints, row, skip, dist);
      var placed := Place(row, skip);
      if placed.Some? {
        Count(row, placed.value);
      }
    }

    /** `_process_db` on one file's rows. */
    method ProcessDb(rows: DbRows, skip: set<string>)
      requires Valid()
      modifies this
      ensures Valid()
      ensures Reg() == Track(old(Reg()), checkpoints, rows.GetOr([]), skip, dist)
      ensures checkpoints == old(checkpoints)
    {
      if rows.None? {
        return;
      }
      var rs := rows.value;
      ghost var start := Reg();
      for i := 0 to |rs|
        invariant Valid() && checkpoints == old(checkpoints)
        invariant Reg() == Track(start, checkpoints, rs[..i], skip, dist)
      {
        TrackSnoc(start, checkpoints, rs, i, skip, dist);
        ProcessRow(rs[i], skip);
      }
      assert rs[..|rs|] == rs;
    }

    /** `_compute_scores`: every profile's score, in registry order. */
    method ComputeScores(score: StalkerProfile -> real)
      requires Valid()
      modifies this
      ensures Valid()
      ensures profiles == ScoreAll(old(profiles), score)
      ensures order == old(order) && checkpoints == old(checkpoints)
    {
      ScoreAllInv(Reg(), score, dist);
      var m, keys := profiles, order;
      ghost var before := profiles;
      assert NoDuplicates(keys) && forall k :: k in before <==> k in keys;
      for i := 0 to |keys|
        invariant ScoredUpTo(m, before, keys, i, score)
        modifies {}
      {
        var p := m[keys[i]];
        if p.uniqueLocationCount < 2 {
          p := p.(stalkerScore := 0.0);
        } else {
          p := p.(stalkerScore := score(p));
        }
        ScoreStep(m, before, keys, i, score);
        m := m[keys[i] := p];
      }
      ScoreDone(m, before, keys, score);
      profiles := m;
    }

    /** `scan_and_correlate`: nothing at all without a checkpoint; otherwise
        every file's rows (addresses in the whitelist's home set skipped), the
        scores, and the default ranking (two or more locations, top 20). */
    method ScanAndCorrelate(dbs: seq<DbRows>, whitelist: Option<map<string, seq<string>>>, score: StalkerProfile -> real)
      returns (ranked: seq<StalkerProfile>)
      requires Valid()
      modifies this
      ensures Valid()
      ensures checkpoints == old(checkpoints)
      ensures old(checkpoints) == [] ==> ranked == [] && Reg() == old(Reg())
      ensures old(checkpoints) != [] ==>
        var tracked := TrackDbs(old(Reg()), checkpoints, dbs, HomeSkipSet(whitelist), dist);
        && profiles == ScoreAll(tracked.profiles, score) && order == tracked.order
        && ranked == RankedStalkers(profiles, order, 2, 20)
    {
      if checkpoints == [] {
        return [];
      }
      var skip := HomeSkipSet(whitelist);
      ghost var start := Reg();
      for i := 0 to |dbs|
        invariant Valid() && checkpoints == old(checkpoints)
        invariant Reg() == TrackDbs(start, checkpoints, dbs[..i], skip, dist)
      {
        TrackDbsSnoc(start, checkpoints, dbs, i, skip, dist);
        ProcessDb(dbs[i], skip);
      }
      assert dbs[..|dbs|] == dbs;
      ComputeScores(score);
      ranked := RankedStalkers(profiles, order, 2, 20);
    }
  }
}
