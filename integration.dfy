/**
  The integration's set-up, unload and fetch cycle. Every poll builds a fresh snapshot,
  always fetches real-time data, and fetches device detail, battery settings and the
  energy report only when their last successful fetch is missing or older than their
  interval. Timestamps and device info are kept in a per-entry store, written only after
  the matching fetch succeeds. Any failing fetch aborts the whole cycle.

  The cycle is specified by the function RunCycle and carried out, step by step, by
  Coordinator.Update; the API results of one cycle are an input (Fetches).
*/
module Integration {
  import opened Wrappers
  import opened PyJson
  import opened Api

  // ---------------------------------------------------------------------------
  // Clock and intervals
  // ---------------------------------------------------------------------------

  /** A UTC clock reading in microseconds (the resolution of a datetime difference). */
  type Time = int

  const Minute: int := 60_000_000
  const DetailInterval: int := 15 * Minute
  const BatteryInterval: int := 60 * Minute
  const ReportInterval: int := 60 * Minute

  /** A periodic group is due when it was never fetched, or its last successful fetch is
      strictly more than `interval` before `now`. */
  predicate Due(last: Option<Time>, now: Time, interval: int) {
    last.None? || now - last.value > interval
  }

  /** Once due, a group stays due as the clock advances. */
  lemma DueMonotone(last: Option<Time>, now: Time, later: Time, interval: int)
    requires Due(last, now, interval) && now <= later
    ensures Due(last, later, interval)
  {
  }

  // ---------------------------------------------------------------------------
  // State
  // ---------------------------------------------------------------------------

  /** The fetch groups, in the order a cycle attempts them. */
  datatype Group = Raw | Detail | Battery | Report

  function Rank(g: Group): nat {
    match g
    case Raw => 0
    case Detail => 1
    case Battery => 2
    case Report => 3
  }

  /** The data a successful cycle publishes to the sensors. */
  datatype Snapshot = Snapshot(
    raw: Json,
    battery: Json,
    report: Json,
    reportDaily: Json,
    deviceDetail: Json,
    online: bool,
    lastUpdateRaw: Option<Time>,
    lastUpdateDetail: Option<Time>,
    lastUpdateBattery: Option<Time>,
    lastUpdateReport: Option<Time>)

  /** The per-entry store that survives between cycles: the last device detail and the
      time of the last successful fetch of each periodic group. */
  datatype Store = Store(
    deviceInfo: Json,
    lastDetail: Option<Time>,
    lastBattery: Option<Time>,
    lastReport: Option<Time>)

  /** The store right after set-up: the initial device detail and no fetch yet. */
  function FreshStore(info: Json): Store {
    Store(info, None, None, None)
  }

  /** What each API call of one cycle returns, if the cycle makes it. */
  datatype Fetches = Fetches(
    raw: Outcome<FlatMap>,
    detail: Outcome<Json>,
    battery: Outcome<Json>,
    report: Outcome<Json>)

  /** The failure of group `g`'s call, if it failed. */
  function GroupFailure(f: Fetches, g: Group): Option<Failure> {
    var failed := match g
      case Raw => f.raw.Err?
      case Detail => f.detail.Err?
      case Battery => f.battery.Err?
      case Report => f.report.Err?;
    if !failed then None
    else Some(match g
      case Raw => f.raw.failure
      case Detail => f.detail.failure
      case Battery => f.battery.failure
      case Report => f.report.failure)
  }

  /** Why an update failed, as the UpdateFailed message begins. */
  datatype Reason =
    | AuthenticationFailed
    | ApiTimedOut
    | InvalidResponse
    | UnknownApiError
    | UpdateTimedOut

  function ReasonText(r: Reason): string {
    match r
    case AuthenticationFailed => "Authentication error"
    case ApiTimedOut => "Timeout error"
    case InvalidResponse => "Invalid response error"
    case UnknownApiError => "Unknown API error"
    case UpdateTimedOut => "Coordinator update timed out"
  }

  /** How a cycle ends: a snapshot, UpdateFailed with a reason, or an exception that the
      cycle does not catch. */
  datatype CycleResult = Published(data: Snapshot) | UpdateFailed(reason: Reason) | Crashed

  /** The handler chain: the client's specific exceptions before its base class, then the
      guard's asyncio timeout; anything else escapes the cycle. */
  function FailureResult(e: Failure): (r: CycleResult) {
    match e
    case AuthError => UpdateFailed(AuthenticationFailed)
    case TimeoutError => UpdateFailed(ApiTimedOut)
    case ResponseError => UpdateFailed(InvalidResponse)
    case ApiException => UpdateFailed(UnknownApiError)
    case AsyncTimeout => UpdateFailed(UpdateTimedOut)
    case OtherException => Crashed
  }

  /** Every failure of the client's taxonomy and the asyncio timeout become UpdateFailed,
      with a distinct reason for each; only foreign exceptions escape. */
  lemma FailureResultMapping(e: Failure, e': Failure)
    ensures FailureResult(e).UpdateFailed? <==> e != OtherException
    ensures FailureResult(e).UpdateFailed? && FailureResult(e) == FailureResult(e') ==> e == e'
    ensures e == AuthError ==> ReasonText(FailureResult(e).reason) == "Authentication error"
    ensures e == ApiException ==> ReasonText(FailureResult(e).reason) == "Unknown API error"
  {
  }

  /** The effect of a cycle: the store afterwards, the result, and the API calls made, in
      order. */
  datatype Cycle = Cycle(store: Store, result: CycleResult, calls: seq<Group>)

  // ---------------------------------------------------------------------------
  // The cycle, as a specification
  // ---------------------------------------------------------------------------

  /** The snapshot a cycle starts from: empty groups, the stored device detail, offline,
      and the stored timestamps. */
  function InitialData(s: Store): (r: Snapshot) {
    Snapshot(EmptyObj, EmptyObj, EmptyObj, EmptyObj, s.deviceInfo, false,
             None, s.lastDetail, s.lastBattery, s.lastReport)
  }

  /** The value the cycle publishes as `raw`: the flattened map's entry for the variable
      "datas", or the empty dict. */
  function DatasOf(flat: FlatMap): (r: Json) {
    if JStr("datas") in flat then flat[JStr("datas")] else EmptyObj
  }

  /** One poll at time `now` from store `s`. */
  function RunCycle(s: Store, now: Time, f: Fetches): (c: Cycle) {
    match f.raw
    case Err(e) => Cycle(s, FailureResult(e), [Raw])
    case Ok(flat) =>
      DetailStep(s, InitialData(s).(raw := DatasOf(flat), online := true, lastUpdateRaw := Some(now)), now, f)
  }

  function DetailStep(s: Store, d: Snapshot, now: Time, f: Fetches): (c: Cycle) {
    if !Due(d.lastUpdateDetail, now, DetailInterval) then BatteryStep(s, d, now, f, [Raw])
    else match f.detail
      case Err(e) => Cycle(s, FailureResult(e), [Raw, Detail])
      case Ok(info) =>
        BatteryStep(s.(deviceInfo := info, lastDetail := Some(now)),
                    d.(deviceDetail := info, lastUpdateDetail := Some(now)), now, f, [Raw, Detail])
  }

  function BatteryStep(s: Store, d: Snapshot, now: Time, f: Fetches, calls: seq<Group>): (r: Cycle) {
    match Get(d.deviceDetail, "hasBattery")
    case Raises => Cycle(s, Crashed, calls)
    case Returns(flag) =>
      if !(Truthy(flag) && Due(d.lastUpdateBattery, now, BatteryInterval)) then ReportStep(s, d, now, f, calls)
      else match f.battery
        case Err(e) => Cycle(s, FailureResult(e), calls + [Battery])
        case Ok(b) =>
          ReportStep(s.(lastBattery := Some(now)),
                     d.(battery := b, lastUpdateBattery := Some(now)), now, f, calls + [Battery])
  }

  function ReportStep(s: Store, d: Snapshot, now: Time, f: Fetches, calls: seq<Group>): (r: Cycle) {
    if !Due(d.lastUpdateReport, now, ReportInterval) then Cycle(s, Published(d), calls)
    else match f.report
      case Err(e) => Cycle(s, FailureResult(e), calls + [Report])
      case Ok(r) =>
        Cycle(s.(lastReport := Some(now)),
              Published(d.(report := r, lastUpdateReport := Some(now))), calls + [Report])
  }

  // ---------------------------------------------------------------------------
  // The gating rules, stated over the store and the fetch results
  // ---------------------------------------------------------------------------

  /** The cycle gets past the detail step: raw data arrived, and detail, if due, too. */
  predicate PassesDetail(s: Store, now: Time, f: Fetches) {
    f.raw.Ok? && (Due(s.lastDetail, now, DetailInterval) ==> f.detail.Ok?)
  }

  /** The device detail the battery gate looks at: the one fetched this cycle if there was
      one, the stored one otherwise. */
  function CurrentDetail(s: Store, now: Time, f: Fetches): (r: Json) {
    if Due(s.lastDetail, now, DetailInterval) && f.detail.Ok? then f.detail.value else s.deviceInfo
  }

  /** The battery settings are fetched: the cycle got this far, the current detail says
      `hasBattery` (truthy), and the settings are stale. */
  predicate BatteryFetched(s: Store, now: Time, f: Fetches) {
    PassesDetail(s, now, f)
    && CurrentDetail(s, now, f).JObj?
    && Truthy(Get(CurrentDetail(s, now, f), "hasBattery").value)
    && Due(s.lastBattery, now, BatteryInterval)
  }

  /** The cycle gets to the report step. */
  predicate PassesBattery(s: Store, now: Time, f: Fetches) {
    PassesDetail(s, now, f) && CurrentDetail(s, now, f).JObj? && (BatteryFetched(s, now, f) ==> f.battery.Ok?)
  }

  /** Which calls a cycle makes: raw always; detail iff raw succeeded and detail is due;
      battery iff BatteryFetched; report iff the cycle got to it and the report is due. */
  lemma CycleGating(s: Store, now: Time, f: Fetches)
    ensures Raw in RunCycle(s, now, f).calls
    ensures Detail in RunCycle(s, now, f).calls <==> f.raw.Ok? && Due(s.lastDetail, now, DetailInterval)
    ensures Battery in RunCycle(s, now, f).calls <==> BatteryFetched(s, now, f)
    ensures Report in RunCycle(s, now, f).calls <==> PassesBattery(s, now, f) && Due(s.lastReport, now, ReportInterval)
  {
    var c := RunCycle(s, now, f);
    if f.raw.Ok? {
      var d := InitialData(s).(raw := DatasOf(f.raw.value), online := true, lastUpdateRaw := Some(now));
      if Due(s.lastDetail, now, DetailInterval) && f.detail.Ok? {
        var s1 := s.(deviceInfo := f.detail.value, lastDetail := Some(now));
        var d1 := d.(deviceDetail := f.detail.value, lastUpdateDetail := Some(now));
        BatteryStepCalls(s1, d1, now, f, [Raw, Detail]);
      } else if !Due(s.lastDetail, now, DetailInterval) {
        BatteryStepCalls(s, d, now, f, [Raw]);
      }
    }
  }

  /** The calls the battery and report steps add to `calls`. */
  lemma BatteryStepCalls(s: Store, d: Snapshot, now: Time, f: Fetches, calls: seq<Group>)
    requires Battery !in calls && Report !in calls
    ensures var c := BatteryStep(s, d, now, f, calls);
            && calls <= c.calls
            && (Battery in c.calls <==>
                  d.deviceDetail.JObj? && Truthy(Get(d.deviceDetail, "hasBattery").value)
                  && Due(d.lastUpdateBattery, now, BatteryInterval))
            && (Report in c.calls <==>
                  d.deviceDetail.JObj?
                  && (Truthy(Get(d.deviceDetail, "hasBattery").value) && Due(d.lastUpdateBattery, now, BatteryInterval)
                      ==> f.battery.Ok?)
                  && Due(d.lastUpdateReport, now, ReportInterval))
  {
  }

  /** The calls of a cycle are Raw followed by other groups in strictly increasing order:
      raw, detail, battery, report, each at most once. */
  lemma CycleCallOrder(s: Store, now: Time, f: Fetches)
    ensures var c := RunCycle(s, now, f);
            && |c.calls| >= 1 && c.calls[0] == Raw
            && (forall i, j :: 0 <= i < j < |c.calls| ==> Rank(c.calls[i]) < Rank(c.calls[j]))
  {
  }

  /** A published snapshot is online, stamped with this cycle's time, carries the
      "datas" entry of the flattened data as `raw`, the current device detail, this
      cycle's battery and report results or `{}` for a group that was not fetched, and
      the timestamps the store now holds. */
  lemma PublishedSnapshot(s: Store, now: Time, f: Fetches)
    ensures var c := RunCycle(s, now, f);
            c.result.Published? ==>
              var d := c.result.data;
              && f.raw.Ok?
              && d.online && d.lastUpdateRaw == Some(now)
              && d.raw == DatasOf(f.raw.value)
              && d.reportDaily == EmptyObj
              && d.deviceDetail == c.store.deviceInfo == CurrentDetail(s, now, f)
              && d.battery == (if Battery in c.calls then f.battery.value else EmptyObj)
              && d.report == (if Report in c.calls then f.report.value else EmptyObj)
              && d.lastUpdateDetail == c.store.lastDetail
              && d.lastUpdateBattery == c.store.lastBattery
              && d.lastUpdateReport == c.store.lastReport
  {
  }

  /** A cycle publishes exactly when every call it made succeeded and the battery gate
      could read the detail; otherwise its result is that of its last call's failure, or
      a crash of the battery gate on a detail that is not a dict. */
  lemma CycleOutcome(s: Store, now: Time, f: Fetches)
    ensures var c := RunCycle(s, now, f);
            && (c.result.Published? <==>
                  (forall g :: g in c.calls ==> GroupFailure(f, g).None?) && CurrentDetail(s, now, f).JObj?)
            && (forall i :: 0 <= i < |c.calls| - 1 ==> GroupFailure(f, c.calls[i]).None?)
            && (!c.result.Published? ==>
                  if GroupFailure(f, c.calls[|c.calls| - 1]).Some?
                  then c.result == FailureResult(GroupFailure(f, c.calls[|c.calls| - 1]).value)
                  else c.result == Crashed && !CurrentDetail(s, now, f).JObj?)
  {
    if f.raw.Ok? {
      var d := InitialData(s).(raw := DatasOf(f.raw.value), online := true, lastUpdateRaw := Some(now));
      if !Due(s.lastDetail, now, DetailInterval) {
        BatteryStepOutcome(s, d, now, f, [Raw]);
      } else if f.detail.Ok? {
        var s1 := s.(deviceInfo := f.detail.value, lastDetail := Some(now));
        var d1 := d.(deviceDetail := f.detail.value, lastUpdateDetail := Some(now));
        BatteryStepOutcome(s1, d1, now, f, [Raw, Detail]);
      } else {
        assert Detail in RunCycle(s, now, f).calls;
      }
    } else {
      assert Raw in RunCycle(s, now, f).calls;
    }
  }

  /** CycleOutcome for the battery and report steps, given calls that all succeeded. */
  lemma BatteryStepOutcome(s: Store, d: Snapshot, now: Time, f: Fetches, calls: seq<Group>)
    requires |calls| >= 1 && forall g :: g in calls ==> GroupFailure(f, g).None?
    ensures var c := BatteryStep(s, d, now, f, calls);
            && calls <= c.calls
            && (c.result.Published? <==> (forall g :: g in c.calls ==> GroupFailure(f, g).None?) && d.deviceDetail.JObj?)
            && (forall i :: 0 <= i < |c.calls| - 1 ==> GroupFailure(f, c.calls[i]).None?)
            && (!c.result.Published? ==>
                  if GroupFailure(f, c.calls[|c.calls| - 1]).Some?
                  then c.result == FailureResult(GroupFailure(f, c.calls[|c.calls| - 1]).value)
                  else c.result == Crashed && !d.deviceDetail.JObj?)
  {
    var c := BatteryStep(s, d, now, f, calls);
    if d.deviceDetail.JObj? {
      var flag := Get(d.deviceDetail, "hasBattery").value;
      var b := Truthy(flag) && Due(d.lastUpdateBattery, now, BatteryInterval);
      if b && f.battery.Ok? {
        assert forall g :: g in calls + [Battery] ==> g in calls || g == Battery;
        ReportStepOutcome(s.(lastBattery := Some(now)), d.(battery := f.battery.value, lastUpdateBattery := Some(now)),
                          now, f, calls + [Battery]);
      } else if !b {
        ReportStepOutcome(s, d, now, f, calls);
      } else {
        assert c.calls == calls + [Battery];
        assert Battery in c.calls;
      }
    }
  }

  /** CycleOutcome for the report step, given calls that all succeeded. */
  lemma ReportStepOutcome(s: Store, d: Snapshot, now: Time, f: Fetches, calls: seq<Group>)
    requires |calls| >= 1 && forall g :: g in calls ==> GroupFailure(f, g).None?
    ensures var c := ReportStep(s, d, now, f, calls);
            && calls <= c.calls
            && (c.result.Published? <==> (forall g :: g in c.calls ==> GroupFailure(f, g).None?))
            && (forall i :: 0 <= i < |c.calls| - 1 ==> GroupFailure(f, c.calls[i]).None?)
            && (!c.result.Published? ==>
                  GroupFailure(f, c.calls[|c.calls| - 1]).Some?
                  && c.result == FailureResult(GroupFailure(f, c.calls[|c.calls| - 1]).value))
  {
    var c := ReportStep(s, d, now, f, calls);
    if Due(d.lastUpdateReport, now, ReportInterval) {
      assert c.calls == calls + [Report];
      assert forall g :: g in calls + [Report] ==> g in calls || g == Report;
      assert Report in c.calls;
    }
  }

  /** The store is written for a group exactly when that group's call was made and
      succeeded; otherwise it keeps its old value, whether or not the cycle then fails. */
  lemma CycleStoreWrites(s: Store, now: Time, f: Fetches)
    ensures var c := RunCycle(s, now, f);
            && c.store.deviceInfo == (if Detail in c.calls && f.detail.Ok? then f.detail.value else s.deviceInfo)
            && c.store.lastDetail == (if Detail in c.calls && f.detail.Ok? then Some(now) else s.lastDetail)
            && c.store.lastBattery == (if Battery in c.calls && f.battery.Ok? then Some(now) else s.lastBattery)
            && c.store.lastReport == (if Report in c.calls && f.report.Ok? then Some(now) else s.lastReport)
  {
  }

  /** Exactly one detail interval after a successful detail fetch the detail is not
      fetched again; any later cycle whose raw fetch succeeds fetches it. */
  lemma DetailIntervalIsStrict(s: Store, t: Time, f1: Fetches, f2: Fetches, later: Time)
    requires Detail in RunCycle(s, t, f1).calls && f1.detail.Ok?
    requires f2.raw.Ok? && later > t + DetailInterval
    ensures Detail !in RunCycle(RunCycle(s, t, f1).store, t + DetailInterval, f2).calls
    ensures Detail in RunCycle(RunCycle(s, t, f1).store, later, f2).calls
  {
    CycleStoreWrites(s, t, f1);
    CycleGating(RunCycle(s, t, f1).store, t + DetailInterval, f2);
    CycleGating(RunCycle(s, t, f1).store, later, f2);
  }

  /** A failed fetch leaves its timestamp alone, so the group is attempted again by the
      next cycle that gets that far. */
  lemma FailedDetailIsRetried(s: Store, t: Time, f1: Fetches, f2: Fetches, later: Time)
    requires Detail in RunCycle(s, t, f1).calls && f1.detail.Err?
    requires f2.raw.Ok? && t <= later
    ensures RunCycle(s, t, f1).store == s
    ensures Detail in RunCycle(RunCycle(s, t, f1).store, later, f2).calls
  {
    CycleGating(s, t, f1);
    CycleStoreWrites(s, t, f1);
    CycleGating(s, later, f2);
  }

  /** Against the real service the flattened real-time data never has a variable named
      "datas", so the published `raw` is always the empty dict, whatever shape the
      response has. */
  lemma RawEmptyWithoutDatasVariable(s: Store, now: Time, f: Fetches, resp: Response)
    requires f.raw == RawData(resp)
    requires Request(resp).Ok? ==>
               forall j :: 0 <= j < |DatasItems(Request(resp).value)| ==>
                 !IsEntryFor(DatasItems(Request(resp).value)[j], JStr("datas"))
    ensures RunCycle(s, now, f).result.Published? ==> RunCycle(s, now, f).result.data.raw == EmptyObj
  {
    if RunCycle(s, now, f).result.Published? {
      PublishedSnapshot(s, now, f);
      var items := DatasItems(Request(resp).value);
      FlattenIsCollect(Request(resp).value);
      CollectKeys(items, f.raw.value);
    }
  }

  // ---------------------------------------------------------------------------
  // The per-entry store and its cycle
  // ---------------------------------------------------------------------------

  /** The integration's state for one config entry: the store written by the cycle. */
  class Coordinator {
    const deviceSn: string
    var deviceInfo: Json
    var lastDetail: Option<Time>
    var lastBattery: Option<Time>
    var lastReport: Option<Time>

    function StoreState(): Store
      reads this
    {
      Store(deviceInfo, lastDetail, lastBattery, lastReport)
    }

    /** The store right after set-up: the initial device detail, nothing fetched yet. */
    constructor(sn: string, info: Json)
      ensures deviceSn == sn
      ensures StoreState() == FreshStore(info)
    {
      deviceSn := sn;
      deviceInfo := info;
      lastDetail := None;
      lastBattery := None;
      lastReport := None;
    }

    /** One poll: fills a fresh snapshot group by group, writing the store after each
        successful periodic fetch, and stops at the first failure. */
    method Update(now: Time, f: Fetches) returns (result: CycleResult, calls: seq<Group>)
      modifies this
      ensures Cycle(StoreState(), result, calls) == RunCycle(old(StoreState()), now, f)
    {
      var data := InitialData(StoreState());
      calls := [Raw];
      if f.raw.Err? {
        return FailureResult(f.raw.failure), calls;
      }
      data := data.(raw := DatasOf(f.raw.value), online := true, lastUpdateRaw := Some(now));

      if Due(data.lastUpdateDetail, now, DetailInterval) {
        calls := calls + [Detail];
        if f.detail.Err? {
          return FailureResult(f.detail.failure), calls;
        }
        data := data.(deviceDetail := f.detail.value);
        deviceInfo := f.detail.value;
        data := data.(lastUpdateDetail := Some(now));
        lastDetail := Some(now);
      }

      var hasBattery := Get(data.deviceDetail, "hasBattery");
      if hasBattery.Raises? {
        return Crashed, calls;
      }
      if Truthy(hasBattery.value) && Due(data.lastUpdateBattery, now, BatteryInterval) {
        calls := calls + [Battery];
        if f.battery.Err? {
          return FailureResult(f.battery.failure), calls;
        }
        data := data.(battery := f.battery.value, lastUpdateBattery := Some(now));
        lastBattery := Some(now);
      }

      if Due(data.lastUpdateReport, now, ReportInterval) {
        calls := calls + [Report];
        if f.report.Err? {
          return FailureResult(f.report.failure), calls;
        }
        data := data.(report := f.report.value, lastUpdateReport := Some(now));
        lastReport := Some(now);
      }
      return Published(data), calls;
    }
  }

  // ---------------------------------------------------------------------------
  // Set-up and unload
  // ---------------------------------------------------------------------------

  /** The device registered for an entry. */
  datatype DeviceRecord = DeviceRecord(name: Json, manufacturer: string, model: Json, swVersion: string)

  /** The device record built from the initial detail; `.get` on a detail that is not a
      dict raises. */
  function DeviceRecordOf(sn: string, info: Json): (r: PyResult<DeviceRecord>) {
    match info
    case JObj(m) =>
      Returns(DeviceRecord(
        if "plantName" in m then m["plantName"] else JStr("FoxESS " + sn),
        "FoxESS",
        if "deviceType" in m then m["deviceType"] else JStr("Unknown"),
        "Master: " + PyStr(if "masterVersion" in m then m["masterVersion"] else JStr("N/A"))
        + ", Slave: " + PyStr(if "slaveVersion" in m then m["slaveVersion"] else JStr("N/A"))
        + ", Manager: " + PyStr(if "managerVersion" in m then m["managerVersion"] else JStr("N/A"))))
    case _ => Raises
  }

  /** The registry defaults: plant name "FoxESS <sn>", model "Unknown", versions "N/A";
      values present in the detail are used as they are. */
  lemma DeviceRecordDefaults(sn: string, m: map<string, Json>)
    ensures DeviceRecordOf(sn, JObj(m)).Returns?
    ensures m == map[] ==>
              (DeviceRecordOf(sn, JObj(m)).value ==
                 DeviceRecord(JStr("FoxESS " + sn), "FoxESS", JStr("Unknown"), "Master: N/A, Slave: N/A, Manager: N/A"))
  {
    if m == map[] {
      assert "Master: " + "N/A" + ", Slave: " + "N/A" + ", Manager: " + "N/A" == "Master: N/A, Slave: N/A, Manager: N/A";
    }
  }

  /** Values present in the detail are registered as they are. */
  lemma DeviceRecordFromDetail(sn: string, m: map<string, Json>)
    ensures "plantName" in m ==> DeviceRecordOf(sn, JObj(m)).value.name == m["plantName"]
    ensures "deviceType" in m ==> DeviceRecordOf(sn, JObj(m)).value.model == m["deviceType"]
  {
  }

  /** How `async_setup_entry` ends. */
  datatype SetupResult =
    | SetupAborted                                      // returns False: initial detail failed
    | SetupRaised                                       // an uncaught exception escapes
    | SetupNotReady(device: DeviceRecord)               // the first refresh failed
    | SetupLoaded(device: DeviceRecord, data: Snapshot) // returns True

  /** The integration's entries: config entry id to its per-entry store. */
  class Domain {
    var entries: map<string, Coordinator>

    constructor()
      ensures entries == map[]
    {
      entries := map[];
    }

    /** Set-up of one entry: the initial device detail (`initial`, fetched under a 30 s
        guard), the store, the device record, then the first cycle. */
    method SetupEntry(entryId: string, sn: string, initial: Outcome<Json>, now: Time, first: Fetches)
      returns (r: SetupResult)
      modifies this
      ensures initial.Err? ==> entries == old(entries)
      ensures initial.Err? ==> r == (if initial.failure == OtherException then SetupRaised else SetupAborted)
      ensures initial.Ok? ==> entryId in entries && fresh(entries[entryId])
                              && entries == old(entries)[entryId := entries[entryId]]
                              && entries[entryId].deviceSn == sn
      ensures initial.Ok? && DeviceRecordOf(sn, initial.value).Raises? ==>
                r == SetupRaised && entries[entryId].StoreState() == FreshStore(initial.value)
      ensures initial.Ok? && DeviceRecordOf(sn, initial.value).Returns? ==>
                var c := RunCycle(FreshStore(initial.value), now, first);
                var device := DeviceRecordOf(sn, initial.value).value;
                && entries[entryId].StoreState() == c.store
                && r == (if c.result.Published? then SetupLoaded(device, c.result.data) else SetupNotReady(device))
    {
      if initial.Err? {
        if initial.failure == OtherException {
          return SetupRaised;
        }
        return SetupAborted;
      }
      var coordinator := new Coordinator(sn, initial.value);
      entries := entries[entryId := coordinator];
      var device := DeviceRecordOf(sn, initial.value);
      if device.Raises? {
        return SetupRaised;
      }
      var result, _ := coordinator.Update(now, first);
      if result.Published? {
        r := SetupLoaded(device.value, result.data);
      } else {
        r := SetupNotReady(device.value);
      }
    }

    /** Unload: the entry is removed only when its platforms unloaded; removing an entry
        that is not there raises KeyError. */
    method UnloadEntry(entryId: string, platformsUnloaded: bool) returns (r: PyResult<bool>)
      modifies this
      ensures !platformsUnloaded ==> r == Returns(false) && entries == old(entries)
      ensures platformsUnloaded && entryId in old(entries) ==>
                (r == Returns(true) && entries == old(entries) - {entryId})
      ensures platformsUnloaded && entryId !in old(entries) ==> r == Raises && entries == old(entries)
    {
      if !platformsUnloaded {
        return Returns(false);
      }
      if entryId !in entries {
        return Raises;
      }
      entries := entries - {entryId};
      return Returns(true);
    }
  }
}
