/**
  The sensor platform's read side: which entities are created from the first snapshot,
  when each entity is available, where it looks its value up, how that value is
  presented, and the inverter-status text.
*/
module Sensor {
  import opened Wrappers
  import opened PyJson
  import Integration

  // ---------------------------------------------------------------------------
  // Descriptions
  // ---------------------------------------------------------------------------

  /** The sensor device classes the descriptions use, and the two that are never
      converted to a number. */
  datatype DeviceClass =
    | Enum | Timestamp | Power | Voltage | Current | Frequency | ReactivePower
    | Battery | Temperature | PowerFactor | Energy

  /** What the read side needs from an entity description: its key, whether it has a
      unit of measurement, and its device class. */
  datatype Description = Description(key: string, hasUnit: bool, deviceClass: Option<DeviceClass>)

  /** Sensors read from the real-time data. */
  const RawDescriptions: seq<Description> := [
    Description("pv1Power", true, Some(Power)),
    Description("pv2Power", true, Some(Power)),
    Description("pv3Power", true, Some(Power)),
    Description("pv4Power", true, Some(Power)),
    Description("pvPower", true, Some(Power)),
    Description("pv1Volt", true, Some(Voltage)),
    Description("pv2Volt", true, Some(Voltage)),
    Description("pv3Volt", true, Some(Voltage)),
    Description("pv4Volt", true, Some(Voltage)),
    Description("pv1Current", true, Some(Current)),
    Description("pv2Current", true, Some(Current)),
    Description("pv3Current", true, Some(Current)),
    Description("pv4Current", true, Some(Current)),
    Description("RVolt", true, Some(Voltage)),
    Description("SVolt", true, Some(Voltage)),
    Description("TVolt", true, Some(Voltage)),
    Description("RCurrent", true, Some(Current)),
    Description("SCurrent", true, Some(Current)),
    Description("TCurrent", true, Some(Current)),
    Description("RPower", true, Some(Power)),
    Description("SPower", true, Some(Power)),
    Description("TPower", true, Some(Power)),
    Description("RFreq", true, Some(Frequency)),
    Description("SFreq", true, Some(Frequency)),
    Description("TFreq", true, Some(Frequency)),
    Description("generationPower", true, Some(Power)),
    Description("gridConsumptionPower", true, Some(Power)),
    Description("feedinPower", true, Some(Power)),
    Description("batDischargePower", true, Some(Power)),
    Description("batChargePower", true, Some(Power)),
    Description("loadsPower", true, Some(Power)),
    Description("meterPower2", true, Some(Power)),
    Description("reactivePower", true, Some(ReactivePower)),
    Description("SoC", true, Some(Battery)),
    Description("SoC_1", true, Some(Battery)),
    Description("SoC_2", true, Some(Battery)),
    Description("SOH", true, None),
    Description("batTemperature", true, Some(Temperature)),
    Description("batTemperature_2", true, Some(Temperature)),
    Description("invBatPower", true, Some(Power)),
    Description("invBatPower_2", true, Some(Power)),
    Description("ambientTemperation", true, Some(Temperature)),
    Description("boostTemperation", true, Some(Temperature)),
    Description("invTemperation", true, Some(Temperature)),
    Description("powerFactor", false, Some(PowerFactor)),
    Description("currentFault", false, None)
  ]

  /** Sensors read from the battery settings. */
  const BatteryDescriptions: seq<Description> := [
    Description("minGridSoc", true, Some(Battery)),
    Description("minSoc", true, Some(Battery))
  ]

  /** Sensors read from today's report. */
  const ReportDescriptions: seq<Description> := [
    Description("generation", true, Some(Energy)),
    Description("feedin", true, Some(Energy)),
    Description("gridConsumption", true, Some(Energy)),
    Description("chargeEnergyToTal", true, Some(Energy)),
    Description("dischargeEnergyToTal", true, Some(Energy)),
    Description("loads", true, Some(Energy))
  ]

  /** The part of the snapshot a described sensor reads. */
  datatype SensorGroup = RawSensor | BatterySensor | ReportSensor

  /** A sensor entity: a described sensor of one group, or the inverter-status sensor. */
  datatype Entity =
    | GroupSensor(group: SensorGroup, description: Description, deviceSn: string)
    | StatusSensor(deviceSn: string)

  /** The entity's unique id: `<sn>_<key>`, or `<sn>_inverter_status`. */
  function UniqueId(e: Entity): (r: string) {
    match e
    case GroupSensor(_, d, sn) => sn + "_" + d.key
    case StatusSensor(sn) => sn + "_inverter_status"
  }

  /** Within one device, distinct keys give distinct ids, and the status sensor's id is
      the id a described sensor with key "inverter_status" would have. */
  lemma UniqueIdInjective(sn: string, g: SensorGroup, g': SensorGroup, d: Description, d': Description)
    requires UniqueId(GroupSensor(g, d, sn)) == UniqueId(GroupSensor(g', d', sn))
    ensures d.key == d'.key
    ensures UniqueId(StatusSensor(sn)) == UniqueId(GroupSensor(g, Description("inverter_status", false, None), sn))
  {
    assert d.key == UniqueId(GroupSensor(g, d, sn))[|sn| + 1..];
    assert d'.key == UniqueId(GroupSensor(g', d', sn))[|sn| + 1..];
  }

  // ---------------------------------------------------------------------------
  // Entity creation
  // ---------------------------------------------------------------------------

  /** The descriptions whose key is `in` the container, in order; `in` on a value that is
      not a container raises. */
  function Select(descs: seq<Description>, container: Json): (r: PyResult<seq<Description>>) {
    if descs == [] then Returns([])
    else
      match Select(descs[..|descs| - 1], container)
      case Raises => Raises
      case Returns(kept) =>
        match Contains(descs[|descs| - 1].key, container)
        case Raises => Raises
        case Returns(found) => Returns(if found then kept + [descs[|descs| - 1]] else kept)
  }

  /** Selection keeps exactly the descriptions whose key is found, and raises exactly
      when there is something to test and the value is not a container. */
  lemma {:induction false} SelectMembers(descs: seq<Description>, container: Json)
    ensures Select(descs, container).Raises? <==> descs != [] && !IsContainer(container)
    ensures Select(descs, container).Returns? ==>
              forall d :: d in Select(descs, container).value <==>
                d in descs && Contains(d.key, container) == Returns(true)
  {
    if descs != [] {
      var init := descs[..|descs| - 1];
      SelectMembers(init, container);
      assert forall d :: d in descs <==> d in init || d == descs[|descs| - 1];
    }
  }

  /** Once selection raises on a prefix it raises on the whole list. */
  lemma {:induction false} SelectRaisesExtends(descs: seq<Description>, container: Json, n: nat)
    requires n <= |descs| && Select(descs[..n], container).Raises?
    ensures Select(descs, container).Raises?
    decreases |descs| - n
  {
    if n < |descs| {
      assert descs[..n + 1][..n] == descs[..n];
      SelectRaisesExtends(descs, container, n + 1);
    } else {
      assert descs[..n] == descs;
    }
  }

  /** The entities for the selected descriptions of one group. */
  function Sensors(g: SensorGroup, descs: seq<Description>, sn: string): (r: seq<Entity>)
    ensures |r| == |descs|
    ensures forall e :: e in r ==> e.GroupSensor? && e.group == g && e.deviceSn == sn
  {
    seq(|descs|, i requires 0 <= i < |descs| => GroupSensor(g, descs[i], sn))
  }

  /** The entities of one group are exactly its selected descriptions, for this device. */
  lemma SensorsMembers(g: SensorGroup, descs: seq<Description>, sn: string)
    ensures forall e: Entity :: e in Sensors(g, descs, sn) <==>
              e.GroupSensor? && e.group == g && e.description in descs && e.deviceSn == sn
  {
    var r := Sensors(g, descs, sn);
    forall e: Entity | e.GroupSensor? && e.group == g && e.description in descs && e.deviceSn == sn
      ensures e in r
    {
      var i :| 0 <= i < |descs| && descs[i] == e.description;
      assert r[i] == e;
    }
  }

  /** The entities the platform set-up creates from the first snapshot and the stored
      device detail: raw sensors, battery-setting sensors (only for a device with a
      battery), report sensors, then the status sensor. */
  function EntitiesOf(data: Integration.Snapshot, deviceInfo: Json, sn: string): (r: PyResult<seq<Entity>>) {
    match Select(RawDescriptions, data.raw)
    case Raises => Raises
    case Returns(raws) =>
      match Get(deviceInfo, "hasBattery")
      case Raises => Raises
      case Returns(flag) =>
        match (if Truthy(flag) then Select(BatteryDescriptions, data.battery) else Returns([]))
        case Raises => Raises
        case Returns(batteries) =>
          match GetOr(data.report, "today", EmptyObj)
          case Raises => Raises
          case Returns(today) =>
            match Select(ReportDescriptions, today)
            case Raises => Raises
            case Returns(reports) =>
              Returns(Sensors(RawSensor, raws, sn) + Sensors(BatterySensor, batteries, sn)
                      + Sensors(ReportSensor, reports, sn) + [StatusSensor(sn)])
  }

  /** The device has a battery according to the stored detail. */
  predicate HasBattery(deviceInfo: Json) {
    deviceInfo.JObj? && Truthy(Get(deviceInfo, "hasBattery").value)
  }

  /** Today's report, as the set-up looks it up. */
  function TodayReport(data: Integration.Snapshot): Json
    requires data.report.JObj?
  {
    GetOr(data.report, "today", EmptyObj).value
  }

  /** Creation raises exactly when one of the values tested with `in` is not a
      container, or a `.get` meets a non-dict. */
  lemma EntitiesRaise(data: Integration.Snapshot, deviceInfo: Json, sn: string)
    ensures EntitiesOf(data, deviceInfo, sn).Raises? <==>
              !IsContainer(data.raw) || !deviceInfo.JObj?
              || (HasBattery(deviceInfo) && !IsContainer(data.battery))
              || !data.report.JObj? || !IsContainer(TodayReport(data))
  {
    SelectMembers(RawDescriptions, data.raw);
    SelectMembers(BatteryDescriptions, data.battery);
    if data.report.JObj? {
      SelectMembers(ReportDescriptions, TodayReport(data));
    }
  }

  /** A successful creation is the three groups' selections followed by the status
      sensor. */
  lemma EntitiesParts(data: Integration.Snapshot, deviceInfo: Json, sn: string)
    requires EntitiesOf(data, deviceInfo, sn).Returns?
    ensures Select(RawDescriptions, data.raw).Returns? && deviceInfo.JObj?
    ensures HasBattery(deviceInfo) ==> Select(BatteryDescriptions, data.battery).Returns?
    ensures data.report.JObj? && Select(ReportDescriptions, TodayReport(data)).Returns?
    ensures EntitiesOf(data, deviceInfo, sn).value ==
              Sensors(RawSensor, Select(RawDescriptions, data.raw).value, sn)
              + Sensors(BatterySensor, if HasBattery(deviceInfo) then Select(BatteryDescriptions, data.battery).value else [], sn)
              + Sensors(ReportSensor, Select(ReportDescriptions, TodayReport(data)).value, sn)
              + [StatusSensor(sn)]
  {
  }

  /** A raw sensor is created iff its key is in `raw`; the status sensor always, last;
      all of them for this device. */
  lemma EntitiesCreated(data: Integration.Snapshot, deviceInfo: Json, sn: string)
    requires EntitiesOf(data, deviceInfo, sn).Returns?
    ensures var es := EntitiesOf(data, deviceInfo, sn).value;
            && |es| >= 1 && es[|es| - 1] == StatusSensor(sn)
            && (forall e :: e in es ==> e.deviceSn == sn)
            && (forall d :: GroupSensor(RawSensor, d, sn) in es <==>
                  d in RawDescriptions && Contains(d.key, data.raw) == Returns(true))
  {
    EntitiesParts(data, deviceInfo, sn);
    var raws := Select(RawDescriptions, data.raw).value;
    var batteries := if HasBattery(deviceInfo) then Select(BatteryDescriptions, data.battery).value else [];
    var reports := Select(ReportDescriptions, TodayReport(data)).value;
    SelectMembers(RawDescriptions, data.raw);
    SensorsMembers(RawSensor, raws, sn);
    SensorsMembers(BatterySensor, batteries, sn);
    SensorsMembers(ReportSensor, reports, sn);
  }

  /** A battery-setting sensor is created iff the device has a battery and its key is in
      `battery`; a report sensor iff its key is in today's report. */
  lemma EntitiesCreatedPeriodic(data: Integration.Snapshot, deviceInfo: Json, sn: string)
    requires EntitiesOf(data, deviceInfo, sn).Returns?
    ensures var es := EntitiesOf(data, deviceInfo, sn).value;
            && (forall d :: GroupSensor(BatterySensor, d, sn) in es <==>
                  d in BatteryDescriptions && HasBattery(deviceInfo) && Contains(d.key, data.battery) == Returns(true))
            && (forall d :: GroupSensor(ReportSensor, d, sn) in es <==>
                  d in ReportDescriptions && Contains(d.key, TodayReport(data)) == Returns(true))
  {
    EntitiesCreatedBattery(data, deviceInfo, sn);
    EntitiesCreatedReport(data, deviceInfo, sn);
  }

  /** The battery half of EntitiesCreatedPeriodic. */
  lemma EntitiesCreatedBattery(data: Integration.Snapshot, deviceInfo: Json, sn: string)
    requires EntitiesOf(data, deviceInfo, sn).Returns?
    ensures forall d :: GroupSensor(BatterySensor, d, sn) in EntitiesOf(data, deviceInfo, sn).value <==>
              d in BatteryDescriptions && HasBattery(deviceInfo) && Contains(d.key, data.battery) == Returns(true)
  {
    EntitiesParts(data, deviceInfo, sn);
    var raws := Select(RawDescriptions, data.raw).value;
    var batteries := if HasBattery(deviceInfo) then Select(BatteryDescriptions, data.battery).value else [];
    var reports := Select(ReportDescriptions, TodayReport(data)).value;
    SelectMembers(BatteryDescriptions, data.battery);
    SensorsMembers(RawSensor, raws, sn);
    SensorsMembers(BatterySensor, batteries, sn);
    SensorsMembers(ReportSensor, reports, sn);
  }

  /** The report half of EntitiesCreatedPeriodic. */
  lemma EntitiesCreatedReport(data: Integration.Snapshot, deviceInfo: Json, sn: string)
    requires EntitiesOf(data, deviceInfo, sn).Returns?
    ensures forall d :: GroupSensor(ReportSensor, d, sn) in EntitiesOf(data, deviceInfo, sn).value <==>
              d in ReportDescriptions && Contains(d.key, TodayReport(data)) == Returns(true)
  {
    EntitiesParts(data, deviceInfo, sn);
    var raws := Select(RawDescriptions, data.raw).value;
    var batteries := if HasBattery(deviceInfo) then Select(BatteryDescriptions, data.battery).value else [];
    var reports := Select(ReportDescriptions, TodayReport(data)).value;
    SelectMembers(ReportDescriptions, TodayReport(data));
    SensorsMembers(RawSensor, raws, sn);
    SensorsMembers(BatterySensor, batteries, sn);
    SensorsMembers(ReportSensor, reports, sn);
  }

  /** The filtering loop of one group: appends, in order, an entity for each description
      whose key is `in` the container. */
  method AppendSelected(entities: seq<Entity>, g: SensorGroup, descs: seq<Description>, container: Json, sn: string)
    returns (r: PyResult<seq<Entity>>)
    ensures r == match Select(descs, container)
                 case Raises => Raises
                 case Returns(kept) => Returns(entities + Sensors(g, kept, sn))
  {
    var result := entities;
    for i := 0 to |descs|
      invariant Select(descs[..i], container).Returns?
      invariant result == entities + Sensors(g, Select(descs[..i], container).value, sn)
    {
      var description := descs[i];
      assert descs[..i + 1][..i] == descs[..i];
      var found := Contains(description.key, container);
      if found.Raises? {
        SelectRaisesExtends(descs, container, i + 1);
        return Raises;
      }
      if found.value {
        result := result + [GroupSensor(g, description, sn)];
      }
      assert result == entities + Sensors(g, Select(descs[..i + 1], container).value, sn);
    }
    assert descs[..|descs|] == descs;
    return Returns(result);
  }

  /** The platform set-up: builds the entity list group by group from the first
      snapshot and the stored device detail. */
  method CreateEntities(data: Integration.Snapshot, deviceInfo: Json, sn: string) returns (r: PyResult<seq<Entity>>)
    ensures r == EntitiesOf(data, deviceInfo, sn)
  {
    var entities: seq<Entity> := [];
    var raws := AppendSelected(entities, RawSensor, RawDescriptions, data.raw, sn);
    if raws.Raises? {
      return Raises;
    }
    ghost var a := Sensors(RawSensor, Select(RawDescriptions, data.raw).value, sn);
    assert raws.value == [] + a == a;
    entities := raws.value;
    var hasBattery := Get(deviceInfo, "hasBattery");
    if hasBattery.Raises? {
      return Raises;
    }
    ghost var b: seq<Entity> := [];
    if Truthy(hasBattery.value) {
      var batteries := AppendSelected(entities, BatterySensor, BatteryDescriptions, data.battery, sn);
      if batteries.Raises? {
        return Raises;
      }
      b := Sensors(BatterySensor, Select(BatteryDescriptions, data.battery).value, sn);
      entities := batteries.value;
    } else {
      assert Sensors(BatterySensor, [], sn) == [];
      assert entities == a + b;
    }
    var today := GetOr(data.report, "today", EmptyObj);
    if today.Raises? {
      return Raises;
    }
    var reports := AppendSelected(entities, ReportSensor, ReportDescriptions, today.value, sn);
    if reports.Raises? {
      return Raises;
    }
    ghost var c := Sensors(ReportSensor, Select(ReportDescriptions, today.value).value, sn);
    assert reports.value == a + b + c;
    entities := reports.value + [StatusSensor(sn)];
    return Returns(entities);
  }

  // ---------------------------------------------------------------------------
  // Availability
  // ---------------------------------------------------------------------------

  /** The shared availability test: the last refresh succeeded, there is data, and the
      inverter is online. */
  predicate BaseAvailable(coordinatorOk: bool, data: Option<Integration.Snapshot>) {
    coordinatorOk && data.Some? && data.value.online
  }

  /** Whether the entity is available. The tests are evaluated left to right and stop at
      the first false one; `in` on a non-container and `.get` on a non-dict raise. */
  function Available(e: Entity, coordinatorOk: bool, data: Option<Integration.Snapshot>): (r: PyResult<bool>) {
    if !BaseAvailable(coordinatorOk, data) then Returns(false)
    else
      var d := data.value;
      match e
      case StatusSensor(_) =>
        if d.raw.JNull? then Returns(false) else Contains("runningStatus", d.raw)
      case GroupSensor(RawSensor, desc, _) =>
        if d.raw.JNull? then Returns(false) else Contains(desc.key, d.raw)
      case GroupSensor(BatterySensor, desc, _) =>
        if d.battery.JNull? then Returns(false) else Contains(desc.key, d.battery)
      case GroupSensor(ReportSensor, desc, _) =>
        if d.report.JNull? then Returns(false)
        else match Get(d.report, "today")
          case Raises => Raises
          case Returns(today) => if today.JNull? then Returns(false) else Contains(desc.key, today)
  }

  /** No entity is available while the last refresh failed, there is no data, or the
      inverter is offline. */
  lemma UnavailableUnlessBase(e: Entity, coordinatorOk: bool, data: Option<Integration.Snapshot>)
    requires !BaseAvailable(coordinatorOk, data)
    ensures Available(e, coordinatorOk, data) == Returns(false)
  {
  }

  /** With base availability, a described sensor over a dict is available iff its key is
      in its own group (for a report sensor, in today's report), and the status sensor iff
      "runningStatus" is in `raw`. */
  lemma AvailableOverDicts(e: Entity, data: Integration.Snapshot)
    requires data.online
    ensures e.StatusSensor? && data.raw.JObj? ==>
              Available(e, true, Some(data)) == Returns("runningStatus" in data.raw.fields)
    ensures e.GroupSensor? && e.group == RawSensor && data.raw.JObj? ==>
              Available(e, true, Some(data)) == Returns(e.description.key in data.raw.fields)
    ensures e.GroupSensor? && e.group == BatterySensor && data.battery.JObj? ==>
              Available(e, true, Some(data)) == Returns(e.description.key in data.battery.fields)
    ensures e.GroupSensor? && e.group == ReportSensor && data.report.JObj? ==>
              Available(e, true, Some(data)) ==
                (if "today" in data.report.fields && data.report.fields["today"] != JNull
                 then Contains(e.description.key, data.report.fields["today"])
                 else Returns(false))
  {
  }

  // ---------------------------------------------------------------------------
  // Values
  // ---------------------------------------------------------------------------

  /** The raw value a described sensor reads: `.get(key)` on its group (for a report
      sensor, on today's report, `{}` if missing). There must be data. */
  function LookupValue(e: Entity, data: Option<Integration.Snapshot>): (r: PyResult<Json>)
    requires e.GroupSensor?
  {
    match data
    case None => Raises
    case Some(d) =>
      match e.group
      case RawSensor => Get(d.raw, e.description.key)
      case BatterySensor => Get(d.battery, e.description.key)
      case ReportSensor =>
        match GetOr(d.report, "today", EmptyObj)
        case Raises => Raises
        case Returns(today) => Get(today, e.description.key)
  }

  /** An available described sensor whose group is a dict finds the value stored under
      its key. */
  lemma AvailableFindsValue(e: Entity, coordinatorOk: bool, data: Option<Integration.Snapshot>)
    requires e.GroupSensor? && Available(e, coordinatorOk, data) == Returns(true)
    ensures e.group == RawSensor && data.value.raw.JObj? ==>
              LookupValue(e, data) == Returns(data.value.raw.fields[e.description.key])
    ensures e.group == BatterySensor && data.value.battery.JObj? ==>
              LookupValue(e, data) == Returns(data.value.battery.fields[e.description.key])
    ensures e.group == ReportSensor && data.value.report.fields["today"].JObj? ==>
              LookupValue(e, data) == Returns(data.value.report.fields["today"].fields[e.description.key])
  {
  }

  /** What a sensor reports: no value, a number, or the looked-up value as it is. */
  datatype SensorValue = NoValue | Number(x: real) | AsIs(v: Json)

  /** The description asks for a numeric state: it has a unit and its device class is
      neither ENUM nor TIMESTAMP. */
  predicate IsNumeric(desc: Description) {
    desc.hasUnit && desc.deviceClass != Some(Enum) && desc.deviceClass != Some(Timestamp)
  }

  /** The state of a described sensor from its looked-up value; `toFloat` is Python's
      `float()`, None where it raises ValueError or TypeError. */
  function NativeValue(desc: Description, value: PyResult<Json>, toFloat: Json -> Option<real>): (r: PyResult<SensorValue>) {
    match value
    case Raises => Raises
    case Returns(v) =>
      if v.JNull? then Returns(NoValue)
      else if IsNumeric(desc) then
        Returns(match toFloat(v) case Some(x) => Number(x) case None => NoValue)
      else Returns(AsIs(v))
  }

  /** A missing value is no value; a numeric sensor reports the conversion or no value;
      any other sensor reports the value unchanged. */
  lemma NativeValueCases(desc: Description, v: Json, toFloat: Json -> Option<real>)
    ensures v.JNull? ==> NativeValue(desc, Returns(v), toFloat) == Returns(NoValue)
    ensures !v.JNull? && IsNumeric(desc) && toFloat(v).Some? ==>
              NativeValue(desc, Returns(v), toFloat) == Returns(Number(toFloat(v).value))
    ensures !v.JNull? && IsNumeric(desc) && toFloat(v).None? ==>
              NativeValue(desc, Returns(v), toFloat) == Returns(NoValue)
    ensures !v.JNull? && !IsNumeric(desc) ==> NativeValue(desc, Returns(v), toFloat) == Returns(AsIs(v))
    ensures NativeValue(desc, Returns(v), toFloat).value.Number? ==> IsNumeric(desc)
  {
  }

  /** The power factor (no unit) and the fault code (no unit, no class) are reported as
      they are; SOH, which has a unit and no device class, is numeric, and so are all
      battery-setting and report sensors. */
  lemma NumericDescriptions()
    ensures !IsNumeric(RawDescriptions[44]) && RawDescriptions[44].key == "powerFactor"
    ensures !IsNumeric(RawDescriptions[45]) && RawDescriptions[45].key == "currentFault"
    ensures IsNumeric(RawDescriptions[36]) && RawDescriptions[36].key == "SOH"
    ensures forall d :: d in BatteryDescriptions ==> IsNumeric(d)
    ensures forall d :: d in ReportDescriptions ==> IsNumeric(d)
  {
  }

  // ---------------------------------------------------------------------------
  // Inverter status
  // ---------------------------------------------------------------------------

  /** The known running-status codes, as text, and their names. */
  const StatusNames: map<string, string> := map[
    "164" := "Off-Grid",
    "0" := "Waiting",
    "1" := "Normal",
    "2" := "Fault",
    "3" := "Permanent Fault",
    "4" := "Updating"
  ]

  /** The status text for a code: the name of `str(code)`, or "Unknown (<code>)". */
  function StatusText(code: Json): (r: string) {
    var key := PyStr(code);
    if key in StatusNames then StatusNames[key] else "Unknown (" + key + ")"
  }

  /** The status sensor's state: the text for `raw.get("runningStatus")`. */
  function StatusValue(data: Integration.Snapshot): (r: PyResult<string>) {
    match Get(data.raw, "runningStatus")
    case Raises => Raises
    case Returns(code) => Returns(StatusText(code))
  }

  /** The text starts with "Unknown (". */
  predicate IsUnknownText(t: string) {
    |t| >= 9 && t[..9] == "Unknown ("
  }

  /** A code is named exactly when its text is one of the six known codes, and then its
      name is never confused with an "Unknown (...)" text; distinct known codes have
      distinct names. */
  lemma StatusTextKnown(code: Json, other: Json)
    ensures PyStr(code) in StatusNames ==> StatusText(code) == StatusNames[PyStr(code)]
    ensures PyStr(code) !in StatusNames ==> StatusText(code) == "Unknown (" + PyStr(code) + ")"
    ensures PyStr(code) in StatusNames <==> !IsUnknownText(StatusText(code))
    ensures (PyStr(code) in StatusNames && PyStr(other) in StatusNames && StatusText(code) == StatusText(other))
              ==> PyStr(code) == PyStr(other)
  {
    var key := PyStr(code);
    if key !in StatusNames {
      assert StatusText(code)[..9] == "Unknown (";
    } else {
      assert key == "164" || key == "0" || key == "1" || key == "2" || key == "3" || key == "4";
      assert "Permanent Fault"[0] != "Unknown ("[0];
    }
  }

  /** Worked cases: the text "1" and the number 1 are both "Normal"; 164 is "Off-Grid";
      a float 1.0 and a missing code are unknown. */
  lemma StatusTextExamples()
    ensures StatusText(JStr("1")) == "Normal"
    ensures StatusText(JInt(1)) == "Normal"
    ensures StatusText(JInt(164)) == "Off-Grid"
    ensures StatusText(JFloat("1.0")) == "Unknown (1.0)"
    ensures StatusText(JNull) == "Unknown (None)"
  {
    assert NatToString(1) == "1";
    assert NatToString(16) == "16";
    assert NatToString(164) == "164";
  }

  /** The status text of a snapshot: a `raw` that is not a dict raises, a missing code
      reads as "Unknown (None)", a present one is looked up. */
  lemma StatusValueCases(data: Integration.Snapshot)
    ensures !data.raw.JObj? ==> StatusValue(data).Raises?
    ensures data.raw.JObj? && "runningStatus" !in data.raw.fields ==> StatusValue(data) == Returns("Unknown (None)")
    ensures data.raw.JObj? && "runningStatus" in data.raw.fields ==>
              StatusValue(data) == Returns(StatusText(data.raw.fields["runningStatus"]))
  {
    if data.raw.JObj? && "runningStatus" !in data.raw.fields {
      assert PyStr(JNull) == "None" && "None" !in StatusNames;
      assert "Unknown (" + "None" + ")" == "Unknown (None)";
    }
  }

  // ---------------------------------------------------------------------------
  // Device info
  // ---------------------------------------------------------------------------

  /** The device a described sensor belongs to, built from the stored device detail as at
      registration. */
  function EntityDevice(e: Entity, deviceInfo: Json): (r: PyResult<Integration.DeviceRecord>)
    requires e.GroupSensor?
  {
    Integration.DeviceRecordOf(e.deviceSn, deviceInfo)
  }

  /** A described sensor's device is named "FoxESS <sn>" with model "Unknown" unless the
      detail says otherwise, and reading it from a detail that is not a dict raises. */
  lemma EntityDeviceDefaults(e: Entity, deviceInfo: Json)
    requires e.GroupSensor?
    ensures !deviceInfo.JObj? ==> EntityDevice(e, deviceInfo).Raises?
    ensures deviceInfo.JObj? && "plantName" !in deviceInfo.fields ==>
              EntityDevice(e, deviceInfo).value.name == JStr("FoxESS " + e.deviceSn)
    ensures deviceInfo.JObj? && "deviceType" !in deviceInfo.fields ==>
              EntityDevice(e, deviceInfo).value.model == JStr("Unknown")
    ensures deviceInfo.JObj? ==> EntityDevice(e, deviceInfo).value.manufacturer == "FoxESS"
  {
  }

  // ---------------------------------------------------------------------------
  // Against the cycle
  // ---------------------------------------------------------------------------

  /** After a cycle against the real service, where `raw` is published as `{}`: no raw
      sensor is created, and every raw sensor and the status sensor are unavailable. */
  lemma EmptyRawLeavesRawSensorsOut(data: Integration.Snapshot, deviceInfo: Json, sn: string, e: Entity)
    requires data.raw == EmptyObj
    requires e.StatusSensor? || e.group == RawSensor
    ensures EntitiesOf(data, deviceInfo, sn).Returns? ==>
              forall d :: GroupSensor(RawSensor, d, sn) !in EntitiesOf(data, deviceInfo, sn).value
    ensures Available(e, true, Some(data)) == Returns(false)
  {
    if EntitiesOf(data, deviceInfo, sn).Returns? {
      EntitiesCreated(data, deviceInfo, sn);
    }
  }

  /** A report published as a list (a series rather than a dict) makes entity creation
      raise. */
  lemma ListReportRaises(data: Integration.Snapshot, deviceInfo: Json, sn: string)
    requires data.report.JList?
    ensures EntitiesOf(data, deviceInfo, sn).Raises?
  {
    EntitiesRaise(data, deviceInfo, sn);
  }
}
