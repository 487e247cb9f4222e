# FoxESS Cloud integration — a Dafny model

This project models the core of the FoxESS Cloud integration for Home Assistant. It proves properties about the model.

- **API client.** How one request's outcome is sorted into the client's exception classes. How the real-time variable list is built, with or without the extended PV strings 5–18. How the nested real-time response becomes one variable-to-value map. How each request is signed.
- **Integration.** The entry set-up, with the initial device-detail fetch and the device record. The fetch cycle run on every poll. The unload path.
- **Sensor platform.** Which entities are created from the first snapshot. When each entity is available. Where each one looks up its value, and how that value becomes the sensor's state. The inverter-status text.

Module layout:

- `wrappers.dfy`: `Option`.
- `pyjson.dfy`: decoded JSON values, plus the bits of Python semantics the code relies on: truthiness, `str()`, `== n`, `.get`, `in` and hashability.
- `api.dfy`: the client.
- `integration.dfy`: set-up, the cycle and unload. The cycle is specified by the function `RunCycle` and carried out step by step by the method `Coordinator.Update`.
- `sensor.dfy`: the sensor platform.

Inputs are parameters:

- HTTP outcomes, the MD5 digest, the clock and Python's `float()` are passed in.
- The API results of one cycle are a `Fetches` value.
- A request's outcome is a `Response`: a completed exchange with its body text and decoded JSON, an error status, a connection error, or a timeout.

The model follows the code as written:

- Any failing fetch aborts the whole cycle, with no partial result. A failure from the client's exception classes or the asyncio timeout becomes `UpdateFailed`. Any other exception escapes the cycle uncaught (`Crashed`): a decoded body that is not a dict, an unhashable `variable` in the real-time data, or a device detail that is not a dict at the battery gate. Timestamps and device detail already written to the store stay written.
- The published `raw` is the flattened map's entry for a variable named `"datas"`, or `{}`. The flattened map already is the variable map, so against the real service `raw` is always `{}` (`Integration.RawEmptyWithoutDatasVariable`).
- The report is published as the API returns it. Report sensors look under its `today` key.
- Battery settings and the report start as `{}` in every cycle's snapshot. They are not carried over from the previous cycle, so they are `{}` whenever they are not due.
- A periodic group is due when it was never fetched successfully, or its last successful fetch is strictly more than its interval ago.

## Model

| member | source | states |
|---|---|---|
| Api.RequestEnvelope | custom_components/foxess/api.py:121-132 | For a non-empty envelope: errno 0 yields exactly `result`; errno 41800 is an authentication error; any other errno is a response error |
| Api.RequestBodyEdgeCases | custom_components/foxess/api.py:110-132 | Empty body gives `{}` without error; a non-JSON body is a response error; an object without `errno` is a response error; success without `result` gives `{}`; a decoded body that is not a dict raises outside the client's exceptions |
| Api.RequestErrnoEquality | custom_components/foxess/api.py:123-129 | The errno test is Python's `==`: False and 0.0 count as success, 41800.0 is an authentication error, the string "0" is a response error |
| Api.RequestTransportErrors | custom_components/foxess/api.py:134-144 | Every error status fails; it is an auth error iff the status is 401 or 403, otherwise the generic API exception. A connection error is the generic exception and a timeout the timeout exception. The helper never yields the asyncio timeout |
| Api.AppendMissingShape | custom_components/foxess/api.py:214-216 | Extending keeps the original list as a prefix, every appended name ends up present, and nothing but original or appended names appears |
| Api.AppendMissingNoDuplicates | custom_components/foxess/api.py:210-216 | A list without duplicates stays without duplicates after the extension |
| Api.AppendMissingAppendsNew | custom_components/foxess/api.py:210-216 | No name the extension appends was in the original list, whatever duplicates that list holds |
| Api.AppendMissingFilter | custom_components/foxess/api.py:210-216 | For distinct names, the extension appends exactly the names the list lacks, in their order |
| Api.MissingLength | custom_components/foxess/api.py:210-216 | For distinct names, the number lacking is the number of names minus those already present |
| Api.AppendMissingLength | custom_components/foxess/api.py:210-216 | For distinct names, the list grows by the number of names minus those already present |
| Api.AppendMissingFresh | custom_components/foxess/api.py:210-216 | When none of the distinct appended names is present, all are appended in order |
| Api.PvNameInjective | custom_components/foxess/api.py:211-213 | Distinct (string, suffix) pairs give distinct variable names |
| Api.PvNamesDistinct | custom_components/foxess/api.py:209-213 | The 42 extended names are pairwise distinct |
| Api.DefaultsNotExtended | custom_components/foxess/api.py:182-201 | No default variable has the shape of an extended PV name (pv followed by 5 or more) |
| Api.PvNamesNotDefault | custom_components/foxess/api.py:182-213 | None of the 42 extended names is among the default variables |
| Api.DefaultExtension | custom_components/foxess/api.py:182-216 | Extending the default list appends all 42 names in order: 80 names become 122 |
| Api.BuildVariables | custom_components/foxess/api.py:182-216 | The list sent: defaults for None, the given list, `[]` for a non-list; with extend_pv the base is a prefix followed by exactly the extended names it lacked, in order, so its length is the base's plus 42 minus those already present; every extended name is present, nothing appended was in the base, no duplicates are introduced |
| Api.ExtendPv | custom_components/foxess/api.py:207-216 | The loop over strings 5–18 yields exactly the extension of its input by the 42 names, each appended only if missing |
| Api.FlattenIsCollect | custom_components/foxess/api.py:226-245 | Flattening folds exactly the items of `result[0]['datas']` when the result has that shape, and nothing otherwise |
| Api.FlattenShapes | custom_components/foxess/api.py:226-245 | Non-list or empty result, first item not a dict, no `datas`, or `datas` not a list all flatten to `{}`; items after the first are never read |
| Api.CollectRaisesIff | custom_components/foxess/api.py:234-237 | Flattening raises exactly when some entry names an unhashable variable |
| Api.CollectKeys | custom_components/foxess/api.py:234-237 | The flattened map has a key exactly for the variables some complete entry names |
| Api.CollectLastWins | custom_components/foxess/api.py:234-237 | Each key holds the value of the last entry naming it |
| Api.FlattenResult | custom_components/foxess/api.py:226-245 | The loop computes the flattening specified by `Flatten`, raising on an unhashable variable |
| Api.GetRawData | custom_components/foxess/api.py:179-245 | The list sent is the base list, extended when extend_pv; the outcome is `RawData`: request failures propagate unchanged, a flattening that raises is a foreign exception, otherwise the flattened map |
| Api.Md5cUpper | custom_components/foxess/api.py:59-65 | The "upper" digest is the upper-casing of the default one; it is uppercase hex, and it determines the lowercase digest |
| Api.Md5cExamples | tests/test_api.py:21-36 | With "hello_world" hashing to 8d777f…, the default kind gives that digest and "upper" gives 8D777F… |
| Api.SignaturePlainParts | custom_components/foxess/api.py:73 | The signed text is path, token and timestamp separated by the four characters backslash-r-backslash-n, and splits back into them |
| Api.HeadersSigned | custom_components/foxess/api.py:67-88 | Exactly seven headers; token and lang are the given ones, user agent, content type and connection the fixed values; the timestamp is the decimal clock value in ms and reads back to it; the signature is the lowercase digest of path, token and that timestamp |
| Api.RequestHeaders | custom_components/foxess/api.py:94 | The request helper's headers are signed in language "en" and carry the token |
| Integration.DueMonotone | custom_components/foxess/__init__.py:104 | Once a group is due it stays due as time advances |
| Integration.FailureResultMapping | custom_components/foxess/__init__.py:140-159 | Every client exception and the asyncio timeout become UpdateFailed, each with its own reason; only foreign exceptions escape |
| Integration.CycleGating | custom_components/foxess/__init__.py:93-135 | Raw is always fetched; detail iff raw succeeded and detail is due; battery iff the cycle got there, the current detail says hasBattery and settings are due; report iff the cycle got there and it is due |
| Integration.CycleCallOrder | custom_components/foxess/__init__.py:93-135 | Calls start with raw and follow raw, detail, battery, report, each at most once |
| Integration.PublishedSnapshot | custom_components/foxess/__init__.py:79-138 | A published snapshot is online, stamped now, carries `datas` of the flattened data, the current detail, this cycle's battery/report or `{}`, and the store's timestamps |
| Integration.CycleOutcome | custom_components/foxess/__init__.py:93-159 | A cycle publishes iff every call made succeeded and the detail is a dict; otherwise its result is the mapped failure of its last call, all earlier calls having succeeded |
| Integration.CycleStoreWrites | custom_components/foxess/__init__.py:106-134 | Each stored timestamp and the device detail change exactly when that group's call was made and succeeded, even if the cycle then fails |
| Integration.DetailIntervalIsStrict | custom_components/foxess/__init__.py:29-31 | Exactly 15 minutes after a successful detail fetch it is not fetched again; any later successful cycle fetches it |
| Integration.FailedDetailIsRetried | custom_components/foxess/__init__.py:102-111 | A failed detail fetch leaves the store unchanged and is retried by the next cycle whose raw fetch succeeds |
| Integration.RawEmptyWithoutDatasVariable | custom_components/foxess/__init__.py:97 | For any response whose real-time items name no variable "datas", the published `raw` is `{}` |
| Integration.Coordinator.constructor | custom_components/foxess/__init__.py:54-56 | A new entry store holds the initial detail and no timestamps |
| Integration.Coordinator.Update | custom_components/foxess/__init__.py:73-159 | The imperative cycle leaves the store and returns the result and calls that `RunCycle` specifies |
| Integration.DeviceRecordDefaults | custom_components/foxess/__init__.py:58-70 | A dict detail always yields a record; an empty one gives "FoxESS <sn>", model "Unknown" and all versions "N/A" |
| Integration.DeviceRecordFromDetail | custom_components/foxess/__init__.py:63-65 | plantName and deviceType from the detail are registered as they are |
| Integration.Domain.constructor | custom_components/foxess/__init__.py:36 | The domain starts with no entries |
| Integration.Domain.SetupEntry | custom_components/foxess/__init__.py:34-182 | A failed initial fetch aborts (client or asyncio errors) or raises (others) and stores nothing; otherwise the entry is stored, a non-dict detail raises, and the first cycle decides loaded or not ready |
| Integration.Domain.UnloadEntry | custom_components/foxess/__init__.py:185-191 | The entry is removed and True returned iff the platforms unloaded; a missing entry then raises |
| Sensor.UniqueIdInjective | custom_components/foxess/sensor.py:95 | Unique ids of one device's described sensors determine the key; the status id equals a key "inverter_status" id |
| Sensor.SelectMembers | custom_components/foxess/sensor.py:51-57 | The filter keeps exactly the descriptions whose key is `in` the data and raises exactly for a non-container |
| Sensor.EntitiesRaise | custom_components/foxess/sensor.py:38-82 | Set-up raises exactly when a tested value is not a container or a `.get` meets a non-dict |
| Sensor.EntitiesParts | custom_components/foxess/sensor.py:48-80 | A successful set-up is the raw, battery (only with a battery) and report selections followed by the status sensor |
| Sensor.EntitiesCreated | custom_components/foxess/sensor.py:51-80 | A raw sensor is created iff its key is in `raw`; the status sensor is always created, last; all entities belong to the device |
| Sensor.EntitiesCreatedPeriodic | custom_components/foxess/sensor.py:59-76 | A battery sensor is created iff the device has a battery and its key is in `battery`; a report sensor iff its key is in today's report |
| Sensor.AppendSelected | custom_components/foxess/sensor.py:51-57 | The filtering loop appends exactly the selected descriptions' entities, in order, or raises as the selection does |
| Sensor.CreateEntities | custom_components/foxess/sensor.py:38-82 | The imperative set-up yields exactly the entities `EntitiesOf` specifies |
| Sensor.UnavailableUnlessBase | custom_components/foxess/sensor.py:112-120 | Without a successful refresh, data and an online inverter, no entity is available |
| Sensor.AvailableOverDicts | custom_components/foxess/sensor.py:151-236 | Over dicts, a sensor is available iff its key is in its group (today's report for report sensors), the status sensor iff runningStatus is in raw |
| Sensor.AvailableFindsValue | custom_components/foxess/sensor.py:145-199 | An available described sensor over a dict group finds the value stored under its key |
| Sensor.NativeValueCases | custom_components/foxess/sensor.py:127-142 | A missing value is no state; a numeric description reports the float conversion or nothing; any other reports the value unchanged |
| Sensor.NumericDescriptions | custom_components/foxess/definitions.py:21-103 | powerFactor and currentFault are reported unconverted; SOH and every battery and report sensor are numeric |
| Sensor.StatusTextKnown | custom_components/foxess/sensor.py:244-255 | A code is named iff `str(code)` is a known code; otherwise the text is "Unknown (<code>)"; known names never look unknown and are distinct |
| Sensor.StatusTextExamples | tests/test_sensor.py:97 | "1" and 1 read "Normal", 164 "Off-Grid", 1.0 "Unknown (1.0)", a missing code "Unknown (None)" |
| Sensor.StatusValueCases | custom_components/foxess/sensor.py:238-255 | A non-dict raw raises, a missing status reads "Unknown (None)", a present one is looked up |
| Sensor.EntityDeviceDefaults | custom_components/foxess/sensor.py:97-110 | A sensor's device is named "FoxESS <sn>" and modelled "Unknown" unless the detail says otherwise, made by FoxESS; a non-dict detail raises |
| Sensor.EmptyRawLeavesRawSensorsOut | custom_components/foxess/sensor.py:51-57 | With an empty `raw` no raw sensor is created |
| Sensor.ListReportRaises | custom_components/foxess/sensor.py:71 | A report that is a list makes set-up raise |

## Left out

- HTTP itself (aiohttp session, URLs, query parameters, payload JSON encoding, async timeouts) is not modelled; each request's outcome is an input.
- The MD5 digest is a parameter (`md5Hex`); UTF-8 encoding of the signed text and `round(time.time() * 1000)` are abstracted into the digest and a millisecond clock value.
- The clock (`datetime.utcnow()`) is a parameter of each cycle.
- Python's `float()` is a parameter of `NativeValue`.
- The timeout guard around each cycle fetch uses a name (`DEFAULT_TIMEOUT`) that `__init__.py` never imports; the model treats the guard as working and its expiry as the asyncio timeout failure.
- The per-call payloads of `get_device_detail`, `get_battery_settings` and `get_report` (serial number, year, month, variable names) and `get_report_daily_generation` (never called) are not modelled; only their outcomes are.
- The config flow and constants module are not part of this model.
- The device registry call and its side effects are reduced to the record it would be given.
- The data update coordinator's scheduling, its `last_update_success` and `data` attributes are not modelled as state; the sensor side takes them as parameters.
- Logging is left out.
- The status sensor's `extra_state_attributes` and its own device info (identifiers only) are left out.
- `PyStr` shows lists and dicts by a placeholder rather than Python's repr. This affects the status text of such a code, and the `swVersion` of the device record (`Integration.DeviceRecordOf`, `Sensor.EntityDevice`) when a master, slave or manager version is a list or dict.
- Python dicts identify keys `1`, `1.0` and `True`; the flattened map keys on the decoded value and keeps them apart.
- `EqualsNat` compares floats through their text and holds only below 10^16.
- Api.BuildVariables: appending mutates the caller's own list in place in the source; the model returns a new list and does not capture that aliasing.
- Sensor.StatusValueCases: takes a snapshot, so reading the status while the coordinator has no data (which raises in the source) is not covered.
- Integration.Domain.SetupEntry: the first refresh's host behaviour (raising ConfigEntryNotReady) is summarised as the SetupNotReady result; the platform forwarding is not modelled.
