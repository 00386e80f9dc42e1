/** Turning backend rows into observations: the SSID names found in a device's
    detail blob, the manufacturer from the blob or from the address prefix table,
    and the skipping of rows whose blob cannot be used. */
module Observations {
  import opened Common

  /** One value of a probed or advertised SSID map: either a record with the
      optional `...probedssid.ssid` and `...advertisedssid.ssid` fields, or a value
      that is not a JSON object (reading a field of it raises). */
  datatype SsidRecord = SsidRecord(probed: Option<string>, advertised: Option<string>) | NotARecord

  /** A probed/advertised SSID map: absent, present but not a JSON object (it is
      then skipped), or its values in order. */
  datatype SsidMap = MapAbsent | NotAMap | Entries(records: seq<SsidRecord>)

  /** The blob's `dot11.device` member. */
  datatype Dot11 = Dot11Absent | Dot11NotAnObject | Dot11(probedMap: SsidMap, advertisedMap: SsidMap)

  /** A parsed device blob: a JSON object with its `dot11.device` member and its
      `kismet.device.base.manuf` member, or some other JSON value. */
  datatype Blob = NotAnObject | Blob(dot11: Dot11, manuf: Option<string>)

  /** The `device` column of a backend row: empty, not valid JSON, or parsed. */
  datatype DeviceColumn = NoDetail | Malformed | Detail(blob: Blob)

  /** One row of the backend's device table. */
  datatype BackendRow = BackendRow(
    devmac: string, kind: string, device: DeviceColumn,
    firstTime: Option<int>, lastTime: Option<int>,
    avgLat: Option<real>, avgLon: Option<real>, strongestSignal: Option<int>)

  /** A row after parsing (the source's `raw` dict). */
  datatype Observation = Observation(
    mac: string, kind: string,
    firstTime: Option<int>, lastTime: Option<int>,
    lat: Option<real>, lon: Option<real>, signal: Option<int>,
    ssids: seq<string>, manufacturer: string)

  /** Python truthiness of an optional epoch: None and 0 are false. */
  predicate Truthy(t: Option<int>) {
    t.Some? && t.value != 0
  }

  /** `v.get("dot11.probedssid.ssid") or v.get("dot11.advertisedssid.ssid", "")`. */
  function RecordName(v: SsidRecord): string
    requires v.SsidRecord?
  {
    if v.probed.Some? && v.probed.value != "" then v.probed.value else v.advertised.GetOr("")
  }

  /** How many leading values of a map are records (the loop raises at the first
      value that is not). */
  function GoodCount(rs: seq<SsidRecord>): (n: nat)
    ensures n <= |rs|
    ensures forall j :: 0 <= j < n ==> rs[j].SsidRecord?
    ensures n < |rs| ==> rs[n].NotARecord?
  {
    if rs == [] || rs[0].NotARecord? then 0 else 1 + GoodCount(rs[1..])
  }

  /** The leading records end exactly where the first non-record is (or at the end). */
  lemma {:induction false} GoodCountAt(rs: seq<SsidRecord>, i: nat)
    requires i <= |rs| && forall j :: 0 <= j < i ==> rs[j].SsidRecord?
    requires i == |rs| || rs[i].NotARecord?
    ensures GoodCount(rs) == i
    decreases i
  {
    if i > 0 {
      assert rs[0].SsidRecord?;
      GoodCountAt(rs[1..], i - 1);
    }
  }

  lemma GoodCountPast(rs: seq<SsidRecord>, i: nat)
    requires i < |rs| && i <= GoodCount(rs) && rs[i].SsidRecord?
    ensures i + 1 <= GoodCount(rs)
  {
  }

  /** The names of the first n values, in order. */
  function NamesUpTo(rs: seq<SsidRecord>, n: nat): (r: seq<string>)
    requires n <= |rs| && forall j :: 0 <= j < n ==> rs[j].SsidRecord?
    ensures |r| == n
  {
    if n == 0 then [] else NamesUpTo(rs, n - 1) + [RecordName(rs[n - 1])]
  }

  /** The names a map yields before the loop stops, and whether it ran to the end. */
  function MapNames(m: SsidMap): (seq<string>, bool) {
    match m
    case MapAbsent => ([], true)
    case NotAMap => ([], true)
    case Entries(rs) => (NamesUpTo(rs, GoodCount(rs)), GoodCount(rs) == |rs|)
  }

  /** All candidate names of `dot11.device`, probed map first, and whether the
      scan completed without raising. */
  function Dot11Names(d: Dot11): (seq<string>, bool) {
    match d
    case Dot11Absent => ([], true)
    case Dot11NotAnObject => ([], false)
    case Dot11(p, a) =>
      if !MapNames(p).1 then MapNames(p)
      else (MapNames(p).0 + MapNames(a).0, MapNames(a).1)
  }

  /** `_extract_ssids`: the names of the blob's SSID maps, empty and repeated
      names dropped, probed-map names ahead of advertised-map names; on an
      exception the names gathered so far. The flag says whether no exception
      was raised. */
  function ExtractSsids(blob: Blob): (r: (seq<string>, bool))
    ensures NoDuplicates(r.0) && "" !in r.0
    ensures forall s :: s in r.0 <==> s in Dot11NamesOf(blob) && s != ""
    ensures r.1 <==> ScanCompletes(blob)
    ensures blob.Blob? && blob.dot11.Dot11? ==>
      var probed := MergeNames([], MapNames(blob.dot11.probedMap).0);
      |probed| <= |r.0| && r.0[..|probed|] == probed
  {
    match blob
    case NotAnObject => ([], false)
    case Blob(d, _) =>
      ProbedFirst(d);
      Dot11Completes(d);
      var ns := Dot11Names(d);
      (MergeNames([], ns.0), ns.1)
  }

  /** The merged probed-map names are a prefix of the merged names of both maps. */
  lemma ProbedFirst(d: Dot11)
    ensures d.Dot11? ==>
      var probed := MergeNames([], MapNames(d.probedMap).0);
      var all := MergeNames([], Dot11Names(d).0);
      |probed| <= |all| && all[..|probed|] == probed
  {
    if d.Dot11? && MapNames(d.probedMap).1 {
      MergeNamesConcat([], MapNames(d.probedMap).0, MapNames(d.advertisedMap).0);
    }
  }

  /** Every value of the map is a record (an absent or non-dict map is skipped). */
  predicate AllRecords(m: SsidMap) {
    m.Entries? ==> forall v :: v in m.records ==> v.SsidRecord?
  }

  /** `_extract_ssids` runs without raising: the blob is an object, its
      `dot11.device` member is absent or an object, and every value of both
      SSID maps is a record. */
  predicate ScanCompletes(blob: Blob) {
    && blob.Blob?
    && !blob.dot11.Dot11NotAnObject?
    && (blob.dot11.Dot11? ==> AllRecords(blob.dot11.probedMap) && AllRecords(blob.dot11.advertisedMap))
  }

  /** The loop over a map runs to its end exactly when every value is a record. */
  lemma MapCompletes(m: SsidMap)
    ensures MapNames(m).1 <==> AllRecords(m)
  {
    if m.Entries? {
      var rs := m.records;
      var n := GoodCount(rs);
      if n < |rs| {
        assert rs[n] in rs;
      } else {
        forall v | v in rs
          ensures v.SsidRecord?
        {
          var j :| 0 <= j < |rs| && rs[j] == v;
        }
      }
    }
  }

  /** The scan of `dot11.device` completes exactly when it is absent, or an
      object whose two maps hold only records. */
  lemma Dot11Completes(d: Dot11)
    ensures Dot11Names(d).1 <==>
      !d.Dot11NotAnObject? && (d.Dot11? ==> AllRecords(d.probedMap) && AllRecords(d.advertisedMap))
  {
    if d.Dot11? {
      MapCompletes(d.probedMap);
      MapCompletes(d.advertisedMap);
    }
  }

  /** The name of each of the first n values is among their names. */
  lemma {:induction false} NamesUpToHas(rs: seq<SsidRecord>, n: nat, j: nat)
    requires n <= |rs| && forall k :: 0 <= k < n ==> rs[k].SsidRecord?
    requires j < n
    ensures RecordName(rs[j]) in NamesUpTo(rs, n)
    decreases n
  {
    if j < n - 1 {
      NamesUpToHas(rs, n - 1, j);
    }
  }

  /** When the scan completes, the non-empty name of every value of either
      SSID map is among the extracted names. */
  lemma ExtractSsidsComplete(blob: Blob, m: SsidMap, v: SsidRecord)
    requires ScanCompletes(blob) && blob.dot11.Dot11?
    requires m == blob.dot11.probedMap || m == blob.dot11.advertisedMap
    requires m.Entries? && v in m.records
    ensures v.SsidRecord?
    ensures RecordName(v) != "" ==> RecordName(v) in ExtractSsids(blob).0
  {
    var d := blob.dot11;
    MapCompletes(d.probedMap);
    MapCompletes(d.advertisedMap);
    var rs := m.records;
    var j :| 0 <= j < |rs| && rs[j] == v;
    NamesUpToHas(rs, |rs|, j);
    assert RecordName(v) in MapNames(m).0;
    assert Dot11Names(d).0 == MapNames(d.probedMap).0 + MapNames(d.advertisedMap).0;
  }

  /** The candidate names of a blob before filtering. */
  function Dot11NamesOf(blob: Blob): seq<string> {
    if blob.Blob? then Dot11Names(blob.dot11).0 else []
  }

  /** The inner loop of `_extract_ssids` over one map's values. */
  method AddMapNames(names: seq<string>, m: SsidMap) returns (r: seq<string>, ok: bool)
    ensures r == MergeNames(names, MapNames(m).0) && ok == MapNames(m).1
  {
    if m.Entries? {
      r, ok := AddRecordNames(names, m.records);
    } else {
      r, ok := names, true;
      assert MapNames(m).0 == [];
    }
  }

  /** The loop over a map's values: stops at the first value that is not a
      record. */
  method AddRecordNames(names: seq<string>, rs: seq<SsidRecord>) returns (r: seq<string>, ok: bool)
    ensures r == MergeNames(names, NamesUpTo(rs, GoodCount(rs))) && ok == (GoodCount(rs) == |rs|)
  {
    r, ok := names, true;
    var i := 0;
    while i < |rs|
      invariant i <= GoodCount(rs)
      invariant r == MergeNames(names, NamesUpTo(rs, i))
    {
      if rs[i].NotARecord? {
        GoodCountAt(rs, i);
        ok := false;
        return;
      }
      GoodCountPast(rs, i);
      var v := rs[i];
      var s := if v.probed.Some? && v.probed.value != "" then v.probed.value else v.advertised.GetOr("");
      assert s == RecordName(rs[i]);
      assert NamesUpTo(rs, i + 1) == NamesUpTo(rs, i) + [s];
      MergeNamesSnoc(names, NamesUpTo(rs, i), s);
      if s != "" && s !in r {
        r := r + [s];
      }
      assert r == MergeNames(names, NamesUpTo(rs, i + 1));
      i := i + 1;
    }
    GoodCountAt(rs, i);
  }

  /** `_extract_ssids` as the source runs it. */
  method ExtractSsidsFrom(blob: Blob) returns (ssids: seq<string>, ok: bool)
    ensures (ssids, ok) == ExtractSsids(blob)
  {
    if blob.NotAnObject? || blob.dot11.Dot11NotAnObject? {
      return [], false;
    }
    if blob.dot11.Dot11Absent? {
      return [], true;
    }
    ssids, ok := AddMapNames([], blob.dot11.probedMap);
    if !ok {
      return;
    }
    ssids, ok := AddMapNames(ssids, blob.dot11.advertisedMap);
    MergeNamesConcat([], MapNames(blob.dot11.probedMap).0, MapNames(blob.dot11.advertisedMap).0);
  }

  /** The address-prefix vendor table, one set of prefixes per vendor (no
      prefix belongs to two vendors). */
  const AppleOuis: set<string> := {
    "00:17:f2", "00:1c:b3", "00:23:12", "00:26:bb", "04:26:65", "10:dd:b1",
    "18:af:61", "28:cf:e9", "34:c0:59", "40:d3:2d", "58:55:ca", "60:03:08",
    "70:56:81", "78:4f:43", "90:60:f1", "a4:d1:8c", "b0:65:bd", "d0:03:4b",
    "e0:f5:c6", "f0:18:98", "f4:f1:5a"
  }

  const SamsungOuis: set<string> := {
    "00:17:c8", "08:fc:88", "18:89:5b", "38:01:46", "44:a7:cf", "60:6b:bd",
    "90:18:7c", "b4:3a:28", "d0:22:be"
  }

  const GoogleOuis: set<string> := {
    "00:0c:e7", "3c:5a:b4", "54:60:09", "f4:f5:d8"
  }

  const AmazonOuis: set<string> := {
    "00:21:6a", "38:f7:3d", "40:b4:cd", "74:75:48", "a0:02:dc"
  }

  const NetgearOuis: set<string> := {
    "00:0d:93", "30:46:9a", "b0:7f:b9"
  }

  const CiscoOuis: set<string> := {
    "00:1d:7e", "2c:54:2d", "58:ac:78"
  }

  const RingOuis: set<string> := {
    "00:18:60", "28:6d:97", "30:81:71", "2c:aa:8e"
  }

  const NvidiaOuis: set<string> := {
    "00:04:4b"
  }

  /** The vendor names the table can return. */
  const Vendors: set<string> :=
    {"Apple", "Samsung", "Google", "Amazon", "Netgear", "Cisco", "Ring", "Nvidia"}

  /** The table key of an address: its first 8 characters, lower-cased. */
  function OuiKey(mac: string): string {
    Lower(if |mac| <= 8 then mac else mac[..8])
  }

  /** Whether an address prefix is in the table. */
  predicate KnownPrefix(key: string) {
    key in AppleOuis || key in SamsungOuis || key in GoogleOuis || key in AmazonOuis || key in NetgearOuis || key in CiscoOuis || key in RingOuis || key in NvidiaOuis
  }

  /** No prefix belongs to two vendors, so the order in which `VendorOf`
      tries the tables does not matter, as it cannot in a dict. */
  lemma TablesDisjoint()
    ensures AppleOuis !! SamsungOuis && AppleOuis !! GoogleOuis && AppleOuis !! AmazonOuis
    ensures AppleOuis !! NetgearOuis && AppleOuis !! CiscoOuis && AppleOuis !! RingOuis && AppleOuis !! NvidiaOuis
    ensures SamsungOuis !! GoogleOuis && SamsungOuis !! AmazonOuis && SamsungOuis !! NetgearOuis
    ensures SamsungOuis !! CiscoOuis && SamsungOuis !! RingOuis && SamsungOuis !! NvidiaOuis
    ensures GoogleOuis !! AmazonOuis && GoogleOuis !! NetgearOuis && GoogleOuis !! CiscoOuis
    ensures GoogleOuis !! RingOuis && GoogleOuis !! NvidiaOuis
    ensures AmazonOuis !! NetgearOuis && AmazonOuis !! CiscoOuis && AmazonOuis !! RingOuis && AmazonOuis !! NvidiaOuis
    ensures NetgearOuis !! CiscoOuis && NetgearOuis !! RingOuis && NetgearOuis !! NvidiaOuis
    ensures CiscoOuis !! RingOuis && CiscoOuis !! NvidiaOuis && RingOuis !! NvidiaOuis
  {
    AppleApart();
    SamsungApart();
    OthersApart();
  }

  lemma AppleApart()
    ensures AppleOuis !! SamsungOuis && AppleOuis !! GoogleOuis && AppleOuis !! AmazonOuis
    ensures AppleOuis !! NetgearOuis && AppleOuis !! CiscoOuis && AppleOuis !! RingOuis && AppleOuis !! NvidiaOuis
  {
    AppleApartFromSamsung();
    AppleApartFromGoogleAmazon();
    AppleApartFromNetwork();
  }

  lemma AppleApartFromSamsung()
    ensures AppleOuis !! SamsungOuis
  {
  }

  lemma AppleApartFromGoogleAmazon()
    ensures AppleOuis !! GoogleOuis && AppleOuis !! AmazonOuis
  {
    assert AppleOuis !! GoogleOuis;
  }

  lemma AppleApartFromNetwork()
    ensures AppleOuis !! NetgearOuis && AppleOuis !! CiscoOuis && AppleOuis !! RingOuis && AppleOuis !! NvidiaOuis
  {
    AppleApartFromRouters();
  }

  lemma AppleApartFromRouters()
    ensures AppleOuis !! NetgearOuis && AppleOuis !! CiscoOuis
  {
    assert AppleOuis !! NetgearOuis;
  }

  lemma SamsungApart()
    ensures SamsungOuis !! GoogleOuis && SamsungOuis !! AmazonOuis && SamsungOuis !! NetgearOuis
    ensures SamsungOuis !! CiscoOuis && SamsungOuis !! RingOuis && SamsungOuis !! NvidiaOuis
  {
    assert SamsungOuis !! GoogleOuis;
    assert SamsungOuis !! AmazonOuis;
    assert SamsungOuis !! NetgearOuis;
    assert SamsungOuis !! CiscoOuis;
  }

  lemma OthersApart()
    ensures GoogleOuis !! AmazonOuis && GoogleOuis !! NetgearOuis && GoogleOuis !! CiscoOuis
    ensures GoogleOuis !! RingOuis && GoogleOuis !! NvidiaOuis
    ensures AmazonOuis !! NetgearOuis && AmazonOuis !! CiscoOuis && AmazonOuis !! RingOuis && AmazonOuis !! NvidiaOuis
    ensures NetgearOuis !! CiscoOuis && NetgearOuis !! RingOuis && NetgearOuis !! NvidiaOuis
    ensures CiscoOuis !! RingOuis && CiscoOuis !! NvidiaOuis && RingOuis !! NvidiaOuis
  {
  }

  /** `lookup_manufacturer`: the vendor of the address's prefix, or "Unknown". */
  function LookupManufacturer(mac: string): (r: string)
    ensures r != ""
    ensures r == "Unknown" <==> !KnownPrefix(OuiKey(mac))
    ensures r != "Unknown" ==> r in Vendors
  {
    VendorOf(OuiKey(mac))
  }

  /** Each prefix resolves to the vendor whose table holds it. */
  lemma LookupVendor(mac: string)
    ensures OuiKey(mac) in AppleOuis ==> LookupManufacturer(mac) == "Apple"
    ensures OuiKey(mac) in SamsungOuis ==> LookupManufacturer(mac) == "Samsung"
    ensures OuiKey(mac) in GoogleOuis ==> LookupManufacturer(mac) == "Google"
    ensures OuiKey(mac) in AmazonOuis ==> LookupManufacturer(mac) == "Amazon"
    ensures OuiKey(mac) in NetgearOuis ==> LookupManufacturer(mac) == "Netgear"
    ensures OuiKey(mac) in CiscoOuis ==> LookupManufacturer(mac) == "Cisco"
    ensures OuiKey(mac) in RingOuis ==> LookupManufacturer(mac) == "Ring"
    ensures OuiKey(mac) in NvidiaOuis ==> LookupManufacturer(mac) == "Nvidia"
  {
    TablesDisjoint();
  }

  /** The vendor a table key belongs to, or "Unknown". */
  function VendorOf(key: string): string {
    if key in AppleOuis then "Apple"
    else if key in SamsungOuis then "Samsung"
    else if key in GoogleOuis then "Google"
    else if key in AmazonOuis then "Amazon"
    else if key in NetgearOuis then "Netgear"
    else if key in CiscoOuis then "Cisco"
    else if key in RingOuis then "Ring"
    else if key in NvidiaOuis then "Nvidia"
    else "Unknown"
  }

  /** The lookup ignores letter case and everything after the prefix. */
  lemma LookupIgnoresCaseAndSuffix(mac: string, other: string)
    requires |mac| >= 8 && |other| >= 8
    requires forall i :: 0 <= i < 8 ==> LowerChar(mac[i]) == LowerChar(other[i])
    ensures LookupManufacturer(mac) == LookupManufacturer(other)
  {
    SameKey(mac, other);
  }

  /** Addresses whose first 8 characters agree up to case share a table key. */
  lemma SameKey(mac: string, other: string)
    requires |mac| >= 8 && |other| >= 8
    requires forall i :: 0 <= i < 8 ==> LowerChar(mac[i]) == LowerChar(other[i])
    ensures OuiKey(mac) == OuiKey(other)
  {
    var a, b := OuiKey(mac), OuiKey(other);
    assert |a| == 8 == |b|;
    assert forall i :: 0 <= i < 8 ==> a[i] == b[i];
  }

  /** The blob's `kismet.device.base.manuf` member, "" when there is none. */
  function BlobManuf(d: DeviceColumn): string {
    if d.Detail? && d.blob.Blob? then d.blob.manuf.GetOr("") else ""
  }

  /** One row of `_parse_kismet_db`: None when the row is skipped (its blob is
      not JSON, or is JSON but not an object). */
  function ParseRow(row: BackendRow): (r: Option<Observation>)
    ensures r.None? <==> row.device.Malformed? || (row.device.Detail? && row.device.blob.NotAnObject?)
    ensures r.Some? ==>
      && r.value.mac == row.devmac && r.value.kind == row.kind
      && r.value.firstTime == row.firstTime && r.value.lastTime == row.lastTime
      && r.value.lat == row.avgLat && r.value.lon == row.avgLon && r.value.signal == row.strongestSignal
    ensures r.Some? ==> r.value.ssids == if row.device.Detail? then ExtractSsids(row.device.blob).0 else []
    ensures r.Some? ==> r.value.manufacturer == if BlobManuf(row.device) != "" then BlobManuf(row.device)
                                                else LookupManufacturer(row.devmac)
    ensures r.Some? ==> NoDuplicates(r.value.ssids) && "" !in r.value.ssids
    ensures r.Some? ==> r.value.manufacturer != ""
  {
    var blob := match row.device
      case NoDetail => Blob(Dot11Absent, None)
      case Malformed => NotAnObject
      case Detail(b) => b;
    if row.device.Malformed? || blob.NotAnObject? then None
    else
      var manuf := blob.manuf.GetOr("");
      Some(Observation(
        row.devmac, row.kind, row.firstTime, row.lastTime, row.avgLat, row.avgLon,
        row.strongestSignal, ExtractSsids(blob).0,
        if manuf != "" then manuf else LookupManufacturer(row.devmac)))
  }

  /** The observations of a batch of rows, skipped rows left out, order kept. */
  function ParseRows(rows: seq<BackendRow>): (r: seq<Observation>)
    decreases |rows|
    ensures |r| <= |rows|
    ensures forall o :: o in r ==> NoDuplicates(o.ssids) && "" !in o.ssids && o.manufacturer != ""
  {
    if rows == [] then []
    else
      var init := ParseRows(rows[..|rows| - 1]);
      match ParseRow(rows[|rows| - 1])
      case None => init
      case Some(o) => init + [o]
  }

  /** An observation is parsed from a batch exactly when one of its rows
      parses to it. */
  lemma {:induction false} ParseRowsMembers(rows: seq<BackendRow>)
    ensures forall o :: o in ParseRows(rows) <==> exists row :: row in rows && ParseRow(row) == Some(o)
    decreases |rows|
  {
    if rows != [] {
      var prefix, last := rows[..|rows| - 1], rows[|rows| - 1];
      ParseRowsMembers(prefix);
      assert rows == prefix + [last];
      forall o | o in ParseRows(rows)
        ensures exists row :: row in rows && ParseRow(row) == Some(o)
      {
        if o !in ParseRows(prefix) {
          assert ParseRow(last) == Some(o);
        }
      }
      forall o, row | row in rows && ParseRow(row) == Some(o)
        ensures o in ParseRows(rows)
      {
        if row != last {
          assert row in prefix;
        }
      }
    }
  }

  /** Parsing keeps the order of the rows: the observations of two batches
      in turn are those of the first batch followed by those of the second. */
  lemma {:induction false} ParseRowsConcat(a: seq<BackendRow>, b: seq<BackendRow>)
    ensures ParseRows(a + b) == ParseRows(a) + ParseRows(b)
    decreases |b|
  {
    if b == [] {
      assert a + b == a;
    } else {
      var init := b[..|b| - 1];
      assert (a + b)[..|a + b| - 1] == a + init;
      assert (a + b)[|a + b| - 1] == b[|b| - 1];
      ParseRowsConcat(a, init);
    }
  }

  /** The row loop of `_parse_kismet_db`. */
  method ParseKismetRows(rows: seq<BackendRow>) returns (devices: seq<Observation>)
    ensures devices == ParseRows(rows)
    ensures forall o :: o in devices ==> o.manufacturer != "" && NoDuplicates(o.ssids)
  {
    devices := [];
    for i := 0 to |rows|
      invariant devices == ParseRows(rows[..i])
      invariant forall o :: o in devices ==> o.manufacturer != "" && NoDuplicates(o.ssids)
    {
      assert rows[..i + 1][..i] == rows[..i];
      var parsed := ParseRow(rows[i]);
      if parsed.Some? {
        devices := devices + [parsed.value];
      }
    }
    assert rows[..|rows|] == rows;
  }
}
