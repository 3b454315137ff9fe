/**
 * The scan parsers: each turns the decoded output of one `ubus` command into the records
 * the program posts. A device parser maps one scanned device to `{"rssi", "host", "mac"}`;
 * a scan parser applies it, in order, to the list the scan keeps under a fixed key.
 */
module DeviceParser {
  import opened Wrappers
  import opened Dicts
  import opened JsonData

  /** The exceptions the parsers let escape. */
  datatype Failure =
    | NoGetMethod                // AttributeError: `.get` on a value that is not a dict
    | NotIterable                // TypeError: iterating over a number, a bool or None
    | NotCallable                // TypeError: the device parser to apply is None
    | MissingKey(key: string)    // KeyError: a required field is absent

  datatype DeviceKind = Wifi | Ble

  /** The field of a scanned device that gives the output `rssi`. */
  function RssiField(kind: DeviceKind): string {
    match kind
    case Wifi => "signal"
    case Ble => "rssi"
  }

  /** The field that gives the output `host`. */
  function HostField(kind: DeviceKind): string {
    match kind
    case Wifi => "ssid"
    case Ble => "name"
  }

  /** The required field that gives the output `mac`. */
  function MacField(kind: DeviceKind): string {
    match kind
    case Wifi => "bssid"
    case Ble => "address"
  }

  /** The `rssi` reported for a device that gives none. */
  const NoSignal := -99

  /** The record `{"rssi": …, "host": …, "mac": …}`, keys in that order. */
  function Record(rssi: Json, host: Json, mac: Json): Json {
    JObj(Dict(["rssi", "host", "mac"], map["rssi" := rssi, "host" := host, "mac" := mac]))
  }

  /** What a JSON value holds under `key`, when it is an object that has it. */
  function Field(v: Json, key: string): Option<Json> {
    if v.JObj? then Get(v.fields, key) else None
  }

  /**
   * `wifi_device_parser` and `ble_device_parser` (the Wi-Fi `quality` ratio aside): the
   * device's address is copied verbatim, its signal and name fall back to -99 and "".
   */
  function ParseDevice(kind: DeviceKind, d: Json): (r: Result<Json, Failure>)
    ensures !d.JObj? ==> r == Err(NoGetMethod)
    ensures d.JObj? ==> (r.Ok? <==> Field(d, MacField(kind)).Some?)
    ensures d.JObj? && Field(d, MacField(kind)).None? ==> r == Err(MissingKey(MacField(kind)))
    ensures r.Ok? ==> r.value.JObj? && r.value.fields.keys == ["rssi", "host", "mac"]
    ensures r.Ok? ==> Field(r.value, "mac") == Field(d, MacField(kind))
    ensures r.Ok? ==> Field(r.value, "rssi") == Some(
      if Field(d, RssiField(kind)).Some? then Field(d, RssiField(kind)).value else JNum(NoSignal))
    ensures r.Ok? ==> Field(r.value, "host") == Some(
      if Field(d, HostField(kind)).Some? then Field(d, HostField(kind)).value else JStr(""))
  {
    if !d.JObj? then Err(NoGetMethod)
    else
      var fields := d.fields;
      var mac: Option<Json> := Get(fields, MacField(kind));
      match mac
      case None => Err(MissingKey(MacField(kind)))
      case Some(m) => Ok(Record(GetOr(fields, RssiField(kind), JNum(NoSignal)), GetOr(fields, HostField(kind), JStr("")), m))
  }

  /** The device parser a scan parser was handed, which may be None. */
  function ApplyDevice(kind: Option<DeviceKind>, d: Json): Result<Json, Failure> {
    if kind.None? then Err(NotCallable) else ParseDevice(kind.value, d)
  }

  /**
   * The list comprehension `[device_parser(d) for d in xs]`: element i of the result is the
   * parse of element i, and the first element that fails makes the whole list fail.
   */
  function ParseAll(kind: Option<DeviceKind>, xs: seq<Json>): (r: Result<seq<Json>, Failure>)
    ensures r.Ok? <==> forall i :: 0 <= i < |xs| ==> ApplyDevice(kind, xs[i]).Ok?
    ensures r.Ok? ==> |r.value| == |xs| && forall i :: 0 <= i < |xs| ==> r.value[i] == ApplyDevice(kind, xs[i]).value
    ensures r.Err? ==> exists i :: (0 <= i < |xs| && ApplyDevice(kind, xs[i]) == Err(r.error) &&
      forall j :: 0 <= j < i ==> ApplyDevice(kind, xs[j]).Ok?)
  {
    if xs == [] then Ok([])
    else
      match ApplyDevice(kind, xs[0])
      case Err(e) => Err(e)
      case Ok(v) =>
        var rest := ParseAll(kind, xs[1..]);
        match rest
        case Err(e) =>
          ghost var k :| 0 <= k < |xs[1..]| && ApplyDevice(kind, xs[1..][k]) == Err(e)
            && forall j :: 0 <= j < k ==> ApplyDevice(kind, xs[1..][j]).Ok?;
          assert ApplyDevice(kind, xs[k + 1]) == Err(e);
          Err(e)
        case Ok(vs) => Ok([v] + vs)
  }

  /**
   * What Python yields when iterating over a JSON value: the items of a list, the keys of a
   * dict, the one-character strings of a string; anything else is not iterable.
   */
  function Elements(v: Json): (r: Result<seq<Json>, Failure>)
    ensures r.Err? <==> !(v.JArr? || v.JObj? || v.JStr?)
    ensures v.JArr? ==> r == Ok(v.items)
    ensures v.JObj? ==> (r.Ok? && |r.value| == |v.fields.keys| &&
      forall i :: 0 <= i < |v.fields.keys| ==> r.value[i] == JStr(v.fields.keys[i]))
    ensures v.JStr? ==> r.Ok? && |r.value| == |v.s| && forall i :: 0 <= i < |v.s| ==> r.value[i] == JStr([v.s[i]])
  {
    match v
    case JArr(items) => Ok(items)
    case JObj(fields) => Ok(seq(|fields.keys|, i requires 0 <= i < |fields.keys| => JStr(fields.keys[i])))
    case JStr(s) => Ok(seq(|s|, i requires 0 <= i < |s| => JStr([s[i]])))
    case _ => Err(NotIterable)
  }

  /** The four scan parsers a session can be given. */
  datatype ScanParser = DefaultScan | WifiScan | BleScan | FwScan

  /** The key under which a device scan keeps its device list. */
  function ListKey(p: ScanParser): string
    requires p.WifiScan? || p.BleScan?
  {
    if p.WifiScan? then "results" else "devices"
  }

  /**
   * `default_scan_parser`, `wifi_scan_parser`, `ble_scan_parser` and `fw_scan_parser`, each
   * called with `device_parser=kind`.
   */
  function Scan(p: ScanParser, data: Json, kind: Option<DeviceKind>): (r: Result<Json, Failure>)
    ensures p.DefaultScan? ==> r == Ok(data)
    ensures !p.DefaultScan? && !data.JObj? ==> r == Err(NoGetMethod)
    ensures p.FwScan? && data.JObj? ==> (r.Ok? && r.value.JObj? && r.value.fields.keys == ["fw"] &&
      Field(r.value, "fw") == Some(if Field(data, "fw").Some? then Field(data, "fw").value else JNull))
    ensures (p.WifiScan? || p.BleScan?) && data.JObj? && Field(data, ListKey(p)).None? ==> r == Ok(JArr([]))
    ensures (p.WifiScan? || p.BleScan?) && r.Ok? ==> r.value.JArr?
  {
    match p
    case DefaultScan => Ok(data)
    case FwScan =>
      if !data.JObj? then Err(NoGetMethod)
      else Ok(JObj(Dict(["fw"], map["fw" := GetOr(data.fields, "fw", JNull)])))
    case _ =>
      if !data.JObj? then Err(NoGetMethod)
      else
        match Elements(GetOr(data.fields, ListKey(p), JArr([])))
        case Err(e) => Err(e)
        case Ok(xs) =>
          match ParseAll(kind, xs)
          case Err(e) => Err(e)
          case Ok(devices) => Ok(JArr(devices))
  }

  /**
   * A device scan over a list of devices succeeds exactly when every device parses; it then
   * yields one record per device, in the same order.
   */
  lemma ScanMapsEachDevice(p: ScanParser, data: Json, kind: DeviceKind, xs: seq<Json>)
    requires p.WifiScan? || p.BleScan?
    requires Field(data, ListKey(p)) == Some(JArr(xs))
    ensures Scan(p, data, Some(kind)).Ok? <==> forall i :: 0 <= i < |xs| ==> ParseDevice(kind, xs[i]).Ok?
    ensures var r := Scan(p, data, Some(kind));
      r.Ok? ==> |r.value.items| == |xs| && forall i :: 0 <= i < |xs| ==> r.value.items[i] == ParseDevice(kind, xs[i]).value
  {
    assert forall i :: 0 <= i < |xs| ==> ApplyDevice(Some(kind), xs[i]) == ParseDevice(kind, xs[i]);
  }

  /** One device without its address (or BSSID) makes the whole scan fail with KeyError. */
  lemma OneBadDeviceFailsScan(p: ScanParser, data: Json, kind: DeviceKind, xs: seq<Json>, i: nat)
    requires p.WifiScan? || p.BleScan?
    requires Field(data, ListKey(p)) == Some(JArr(xs))
    requires i < |xs| && xs[i].JObj? && Field(xs[i], MacField(kind)).None?
    requires forall j :: 0 <= j < i ==> ParseDevice(kind, xs[j]).Ok?
    ensures Scan(p, data, Some(kind)) == Err(MissingKey(MacField(kind)))
  {
    assert ApplyDevice(Some(kind), xs[i]).Err?;
    var r := ParseAll(Some(kind), xs);
    var k :| 0 <= k < |xs| && ApplyDevice(Some(kind), xs[k]) == Err(r.error)
      && forall j :: 0 <= j < k ==> ApplyDevice(Some(kind), xs[j]).Ok?;
    if k != i {
      assert false;
    }
  }

  /** The first BLE sample: the first device has no name, the second one has. */
  function SampleBleScan(): Json {
    JObj(Dict(["scanning", "devices"], map[
      "scanning" := JNum(1),
      "devices" := JArr([
        JObj(Dict(["rssi", "address"], map["rssi" := JNum(-61), "address" := JStr("6C:FC:DE:B0:EE:16")])),
        JObj(Dict(["name", "rssi", "address"], map["name" := JStr("Front Door"), "rssi" := JNum(-74),
                                                  "address" := JStr("F4:CE:36:AD:62:91")]))])]))
  }

  /** The BLE scan parser maps the sample to the two records its documentation shows. */
  lemma SampleBleScanParses()
    ensures Scan(BleScan, SampleBleScan(), Some(Ble)) == Ok(JArr([
      Record(JNum(-61), JStr(""), JStr("6C:FC:DE:B0:EE:16")),
      Record(JNum(-74), JStr("Front Door"), JStr("F4:CE:36:AD:62:91"))]))
  {
    var xs := SampleBleScan().fields.values["devices"].items;
    var first := Record(JNum(-61), JStr(""), JStr("6C:FC:DE:B0:EE:16"));
    var second := Record(JNum(-74), JStr("Front Door"), JStr("F4:CE:36:AD:62:91"));
    assert ParseDevice(Ble, xs[0]) == Ok(first);
    assert ParseDevice(Ble, xs[1]) == Ok(second);
    var r := ParseAll(Some(Ble), xs);
    assert r.Ok? && |r.value| == 2;
    assert r.value == [first, second];
  }
}
