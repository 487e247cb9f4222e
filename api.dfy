/**
  The FoxESS Cloud API client, without its I/O: how the outcome of one HTTP exchange is
  classified into the client's exception taxonomy, how the real-time variable list is built,
  how the nested real-time response is flattened, and how the signed headers are formed.
  The HTTP session, the MD5 digest and the clock are parameters.
*/
module Api {
  import opened Wrappers
  import opened PyJson

  // ---------------------------------------------------------------------------
  // Exception taxonomy
  // ---------------------------------------------------------------------------

  /** How a call into the client can fail. The first four are the client's own exception
      classes; the last two are exceptions from outside that hierarchy. */
  datatype Failure =
    | AuthError        // FoxEssApiAuthError
    | TimeoutError     // FoxEssApiTimeoutError
    | ResponseError    // FoxEssApiResponseError
    | ApiException     // FoxEssApiException itself (transport or unclassified HTTP error)
    | AsyncTimeout     // asyncio.TimeoutError raised by a caller's own timeout guard
    | OtherException   // any other exception (AttributeError, TypeError, ...)

  /** The result of one client call: a payload, or the exception it raised. */
  datatype Outcome<+T> = Ok(value: T) | Err(failure: Failure)

  /** How one HTTP exchange ended, as the request helper observes it. */
  datatype Response =
    | Completed(text: string, decoded: Option<Json>)  // status below 400; `decoded` is the body
                                                      // parsed as JSON, None if it is not JSON
    | HttpStatus(status: int)                         // status 400 or above (raise_for_status)
    | ConnectionFailed                                // any other client-side connection error
    | RequestTimedOut                                 // the session's total timeout elapsed

  /** The application error number the cloud uses for a rejected token. */
  const AuthErrno: nat := 41800

  /** The request helper's verdict on a response: the body's `result` member, or the
      exception the helper raises. */
  function Request(resp: Response): (r: Outcome<Json>) {
    match resp
    case RequestTimedOut => Err(TimeoutError)
    case HttpStatus(status) => if status == 401 || status == 403 then Err(AuthError) else Err(ApiException)
    case ConnectionFailed => Err(ApiException)
    case Completed(text, decoded) =>
      if text == "" then Ok(EmptyObj)
      else match decoded
        case None => Err(ResponseError)
        case Some(JObj(m)) =>
          var errno := if "errno" in m then m["errno"] else JNull;
          if !EqualsNat(errno, 0) then
            (if EqualsNat(errno, AuthErrno) then Err(AuthError) else Err(ResponseError))
          else Ok(if "result" in m then m["result"] else EmptyObj)
        case Some(_) => Err(OtherException)  // `.get` on a decoded non-object
  }

  /** A response envelope as the cloud sends it: `{"errno": n, "msg": msg, "result": result}`. */
  function Envelope(errno: int, msg: string, result: Json): Json {
    JObj(map["errno" := JInt(errno), "msg" := JStr(msg), "result" := result])
  }

  /** Classification of the application error number: a successful envelope yields exactly
      its `result`; error number 41800 is an authentication error; any other non-zero error
      number is a response error. */
  lemma RequestEnvelope(text: string, errno: int, msg: string, result: Json)
    requires text != ""
    ensures errno == 0 ==> Request(Completed(text, Some(Envelope(errno, msg, result)))) == Ok(result)
    ensures errno == AuthErrno ==> Request(Completed(text, Some(Envelope(errno, msg, result)))) == Err(AuthError)
    ensures errno != 0 && errno != AuthErrno ==>
              Request(Completed(text, Some(Envelope(errno, msg, result)))) == Err(ResponseError)
  {
  }

  /** Edge cases of the body: an empty body is the empty dict without error; a body that is
      not JSON is a response error; an object without `errno` is a response error; a
      successful object without `result` yields the empty dict; a decoded body that is not
      an object fails outside the client's taxonomy (`.get` on it raises). */
  lemma RequestBodyEdgeCases(text: string, m: map<string, Json>, decoded: Option<Json>)
    ensures Request(Completed("", None)) == Ok(EmptyObj)
    ensures text != "" ==> Request(Completed(text, None)) == Err(ResponseError)
    ensures text != "" && "errno" !in m ==> Request(Completed(text, Some(JObj(m)))) == Err(ResponseError)
    ensures text != "" && "errno" in m && m["errno"] == JInt(0) && "result" !in m ==>
              Request(Completed(text, Some(JObj(m)))) == Ok(EmptyObj)
    ensures text != "" && decoded.Some? && !decoded.value.JObj? ==>
              Request(Completed(text, decoded)) == Err(OtherException)
  {
  }

  /** The error number is compared with Python's `==`: False and 0.0 count as zero, and
      41800.0 as the authentication error number. */
  lemma RequestErrnoEquality(text: string, result: Json)
    requires text != ""
    ensures Request(Completed(text, Some(JObj(map["errno" := JBool(false), "result" := result])))) == Ok(result)
    ensures Request(Completed(text, Some(JObj(map["errno" := JFloat("0.0"), "result" := result])))) == Ok(result)
    ensures Request(Completed(text, Some(JObj(map["errno" := JFloat("41800.0")])))) == Err(AuthError)
    ensures Request(Completed(text, Some(JObj(map["errno" := JStr("0")])))) == Err(ResponseError)
  {
    assert NatToString(0) == "0";
    assert NatToString(41800) == "41800";
  }

  /** Transport errors: 401 and 403 are authentication errors, every other error status and
      every connection error is the generic exception, a timeout is the timeout exception.
      The helper itself never produces AsyncTimeout. */
  lemma RequestTransportErrors(status: int, resp: Response)
    ensures Request(HttpStatus(status)).Err?
    ensures Request(HttpStatus(status)).failure == AuthError <==> status == 401 || status == 403
    ensures status != 401 && status != 403 ==> Request(HttpStatus(status)) == Err(ApiException)
    ensures Request(ConnectionFailed) == Err(ApiException)
    ensures Request(RequestTimedOut) == Err(TimeoutError)
    ensures Request(resp) != Err(AsyncTimeout)
  {
  }

  // ---------------------------------------------------------------------------
  // The real-time variable list
  // ---------------------------------------------------------------------------

  /** The variables requested when the caller names none, in the order they are sent,
      written as eight rows of ten so that facts about them can be checked row by row. */
  const DefaultVariables: seq<Json> :=
    Defaults0 + Defaults1 + Defaults2 + Defaults3 + Defaults4 + Defaults5 + Defaults6 + Defaults7

  const Defaults0: seq<Json> := [
    JStr("ambientTemperation"), JStr("batChargePower"), JStr("batCurrent"), JStr("batDischargePower"), JStr("batTemperature"),
    JStr("batVolt"), JStr("boostTemperation"), JStr("chargeTemperature"), JStr("dcdcStatus"), JStr("dspStatus")
  ]
  const Defaults1: seq<Json> := [
    JStr("ECharge"), JStr("EChargeTotal"), JStr("EDischarge"), JStr("EDischargeTotal"), JStr("EGeneration"),
    JStr("EGenerationTotal"), JStr("EGridCharge"), JStr("EGridChargeTotal"), JStr("EGridDischarge"), JStr("EGridDischargeTotal")
  ]
  const Defaults2: seq<Json> := [
    JStr("EInputTotal"), JStr("ELoad"), JStr("ELoadTotal"), JStr("EOutputTotal"), JStr("epsCurrentR"),
    JStr("epsCurrentS"), JStr("epsCurrentT"), JStr("epsPower"), JStr("epsPowerR"), JStr("epsPowerS")
  ]
  const Defaults3: seq<Json> := [
    JStr("epsPowerT"), JStr("epsVoltR"), JStr("epsVoltS"), JStr("epsVoltT"), JStr("feedinPower"),
    JStr("generationPower"), JStr("gridConsumptionPower"), JStr("invBatCurrent"), JStr("invBatPower"), JStr("invBatVolt")
  ]
  const Defaults4: seq<Json> := [
    JStr("invOutputCurrent"), JStr("invOutputPower"), JStr("invOutputVolt"), JStr("invStatus"), JStr("invTemperation"),
    JStr("loadsPower"), JStr("meterPower"), JStr("meterPower2"), JStr("meterStatus"), JStr("powerFactor")
  ]
  const Defaults5: seq<Json> := [
    JStr("pv1Current"), JStr("pv1Power"), JStr("pv1Volt"), JStr("pv2Current"), JStr("pv2Power"),
    JStr("pv2Volt"), JStr("pv3Current"), JStr("pv3Power"), JStr("pv3Volt"), JStr("pv4Current")
  ]
  const Defaults6: seq<Json> := [
    JStr("pv4Power"), JStr("pv4Volt"), JStr("pvPower"), JStr("RCurrent"), JStr("reactivePower"),
    JStr("RFreq"), JStr("RPower"), JStr("RVolt"), JStr("runningStatus"), JStr("SCurrent")
  ]
  const Defaults7: seq<Json> := [
    JStr("SFreq"), JStr("SoC"), JStr("SPower"), JStr("SVolt"), JStr("sysStatus"),
    JStr("TCurrent"), JStr("TFreq"), JStr("TPower"), JStr("TVolt"), JStr("currentFault")
  ]

  /** The list the extension starts from: the defaults for None, the given list for a
      list, and the empty list for anything else. */
  function BaseVariables(variables: Json): (base: seq<Json>) {
    match variables
    case JNull => DefaultVariables
    case JList(xs) => xs
    case _ => []
  }

  /** The three measurements of one PV string, in the order they are appended. */
  const PvSuffixes: seq<string> := ["Current", "Power", "Volt"]

  /** The variable name of measurement `suffix` of PV string i, e.g. "pv10Power". */
  function PvName(i: nat, suffix: string): string {
    "pv" + NatToString(i) + suffix
  }

  /** The 42 extended PV names in order: strings 5 to 18 ascending, and within each
      string Current, Power, Volt. */
  function PvNames(): (r: seq<Json>)
    ensures |r| == 42
  {
    seq(42, k requires 0 <= k < 42 => JStr(PvName(5 + k / 3, PvSuffixes[k % 3])))
  }

  /** `xs` has no element twice. */
  predicate NoDuplicates(xs: seq<Json>) {
    forall i, j :: 0 <= i < j < |xs| ==> xs[i] != xs[j]
  }

  /** Appending `x` unless it is already present. */
  function AddIfMissing(xs: seq<Json>, x: Json): seq<Json> {
    if x in xs then xs else xs + [x]
  }

  /** Appending each of `ys`, in order, unless it is already present at that point. */
  function AppendMissing(xs: seq<Json>, ys: seq<Json>): (r: seq<Json>) {
    if ys == [] then xs else AddIfMissing(AppendMissing(xs, ys[..|ys| - 1]), ys[|ys| - 1])
  }

  /** The original list is a prefix of the extended one; every appended name ends up in
      the result; and the result holds nothing but original and appended names. */
  lemma {:induction false} AppendMissingShape(xs: seq<Json>, ys: seq<Json>)
    ensures xs <= AppendMissing(xs, ys)
    ensures forall y :: y in ys ==> y in AppendMissing(xs, ys)
    ensures forall z :: z in AppendMissing(xs, ys) ==> z in xs || z in ys
  {
    if ys != [] {
      AppendMissingShape(xs, ys[..|ys| - 1]);
      assert forall y :: y in ys ==> y in ys[..|ys| - 1] || y == ys[|ys| - 1];
    }
  }

  /** A list without duplicates stays without duplicates. */
  lemma {:induction false} AppendMissingNoDuplicates(xs: seq<Json>, ys: seq<Json>)
    requires NoDuplicates(xs)
    ensures NoDuplicates(AppendMissing(xs, ys))
  {
    if ys != [] {
      AppendMissingNoDuplicates(xs, ys[..|ys| - 1]);
    }
  }

  /** When no appended name is already present and the names are distinct, all of them
      are appended, in their order. */
  lemma {:induction false} AppendMissingFresh(xs: seq<Json>, ys: seq<Json>)
    requires NoDuplicates(ys)
    requires forall y :: y in ys ==> y !in xs
    ensures AppendMissing(xs, ys) == xs + ys
  {
    if ys != [] {
      var init := ys[..|ys| - 1];
      var last := ys[|ys| - 1];
      assert NoDuplicates(init);
      AppendMissingFresh(xs, init);
      assert forall k :: 0 <= k < |init| ==> init[k] == ys[k] != ys[|ys| - 1];
      assert last !in xs + init;
      assert init + [last] == ys;
    }
  }

  /** The names of `ys` that `xs` lacks, in the order of `ys`. */
  function Missing(xs: seq<Json>, ys: seq<Json>): (r: seq<Json>)
    ensures forall z :: z in r <==> z in ys && z !in xs
  {
    if ys == [] then []
    else
      var init, last := ys[..|ys| - 1], ys[|ys| - 1];
      assert forall y :: y in ys <==> y in init || y == last;
      Missing(xs, init) + (if last in xs then [] else [last])
  }

  /** Nothing the extension appends was in the original list: a name already present is
      never added again, whatever else the list holds. */
  lemma {:induction false} AppendMissingAppendsNew(xs: seq<Json>, ys: seq<Json>)
    ensures forall k :: |xs| <= k < |AppendMissing(xs, ys)| ==> AppendMissing(xs, ys)[k] !in xs
  {
    if ys != [] {
      AppendMissingShape(xs, ys[..|ys| - 1]);
      AppendMissingAppendsNew(xs, ys[..|ys| - 1]);
    }
  }

  /** For distinct names, the extension appends exactly the names the list lacks, in
      their order. */
  lemma {:induction false} AppendMissingFilter(xs: seq<Json>, ys: seq<Json>)
    requires NoDuplicates(ys)
    ensures AppendMissing(xs, ys) == xs + Missing(xs, ys)
  {
    if ys != [] {
      var init, last := ys[..|ys| - 1], ys[|ys| - 1];
      assert NoDuplicates(init);
      AppendMissingFilter(xs, init);
      assert forall k :: 0 <= k < |init| ==> init[k] == ys[k] != last;
      assert last !in init;
      AppendMissingShape(xs, init);
      assert last in AppendMissing(xs, init) <==> last in xs;
      assert (xs + Missing(xs, init)) + [last] == xs + (Missing(xs, init) + [last]);
    }
  }

  /** The names of `ys` already in `xs`. */
  function Present(xs: seq<Json>, ys: seq<Json>): set<Json> {
    set y | y in ys && y in xs
  }

  /** Present grows by the last name exactly when that name is in `xs`. */
  lemma PresentStep(xs: seq<Json>, ys: seq<Json>)
    requires ys != []
    ensures Present(xs, ys) ==
            Present(xs, ys[..|ys| - 1]) + (if ys[|ys| - 1] in xs then {ys[|ys| - 1]} else {})
  {
    assert forall y :: y in ys <==> y in ys[..|ys| - 1] || y == ys[|ys| - 1];
  }

  /** For distinct names, the lacking ones are all but those already present. */
  lemma {:induction false} MissingLength(xs: seq<Json>, ys: seq<Json>)
    requires NoDuplicates(ys)
    ensures |Missing(xs, ys)| == |ys| - |Present(xs, ys)|
  {
    if ys != [] {
      var init, last := ys[..|ys| - 1], ys[|ys| - 1];
      assert NoDuplicates(init);
      MissingLength(xs, init);
      assert forall k :: 0 <= k < |init| ==> init[k] == ys[k] != last;
      assert last !in Present(xs, init);
      PresentStep(xs, ys);
    }
  }

  /** For distinct names, the extended list grows by the number of names it lacked. */
  lemma AppendMissingLength(xs: seq<Json>, ys: seq<Json>)
    requires NoDuplicates(ys)
    ensures |AppendMissing(xs, ys)| == |xs| + |ys| - |Present(xs, ys)|
  {
    AppendMissingFilter(xs, ys);
    MissingLength(xs, ys);
  }

  /** Decimal text followed by a non-digit: the digits and the rest can be told apart. */
  lemma PvNameInjective(i: nat, j: nat, s: string, t: string)
    requires s in PvSuffixes && t in PvSuffixes
    requires PvName(i, s) == PvName(j, t)
    ensures i == j && s == t
  {
    var a, b := NatToString(i), NatToString(j);
    var n := PvName(i, s);
    assert n == "pv" + a + s && n == "pv" + b + t;
    assert !IsDigit(s[0]) && !IsDigit(t[0]);
    assert a == n[2..2 + |a|] == b;
    assert s == n[2 + |a|..] == t;
    NatToStringInjective(i, j);
  }

  /** The 42 extended names are pairwise distinct. */
  lemma PvNamesDistinct()
    ensures NoDuplicates(PvNames())
  {
    var names := PvNames();
    forall p, q | 0 <= p < q < |names|
      ensures names[p] != names[q]
    {
      assert PvSuffixes[0] != PvSuffixes[1] && PvSuffixes[0] != PvSuffixes[2] && PvSuffixes[1] != PvSuffixes[2];
      if names[p] == names[q] {
        PvNameInjective(5 + p / 3, 5 + q / 3, PvSuffixes[p % 3], PvSuffixes[q % 3]);
        assert false;
      }
    }
  }

  /** A name that is not "pv" followed by a number of 5 or more: either it does not start
      with "pv" and a digit, or its digit run is a single digit from 1 to 4. */
  predicate NotExtendedPv(v: Json) {
    !v.JStr? || |v.s| < 3 || v.s[0] != 'p' || v.s[1] != 'v' || !IsDigit(v.s[2])
    || ('1' <= v.s[2] <= '4' && (|v.s| == 3 || !IsDigit(v.s[3])))
  }

  /** Every default variable is NotExtendedPv. */
  lemma DefaultsNotExtended()
    ensures forall v :: v in DefaultVariables ==> NotExtendedPv(v)
  {
    Defaults0NotExtended(); Defaults1NotExtended(); Defaults2NotExtended(); Defaults3NotExtended();
    Defaults4NotExtended(); Defaults5NotExtended(); Defaults6NotExtended(); Defaults7NotExtended();
  }

  lemma Defaults0NotExtended() ensures forall v :: v in Defaults0 ==> NotExtendedPv(v) {}
  lemma Defaults1NotExtended() ensures forall v :: v in Defaults1 ==> NotExtendedPv(v) {}
  lemma Defaults2NotExtended() ensures forall v :: v in Defaults2 ==> NotExtendedPv(v) {}
  lemma Defaults3NotExtended() ensures forall v :: v in Defaults3 ==> NotExtendedPv(v) {}
  lemma Defaults4NotExtended() ensures forall v :: v in Defaults4 ==> NotExtendedPv(v) {}
  lemma Defaults5NotExtended() ensures forall v :: v in Defaults5 ==> NotExtendedPv(v) {}
  lemma Defaults6NotExtended() ensures forall v :: v in Defaults6 ==> NotExtendedPv(v) {}
  lemma Defaults7NotExtended() ensures forall v :: v in Defaults7 ==> NotExtendedPv(v) {}

  /** An extended name is never NotExtendedPv. */
  lemma PvNameExtended(i: nat, s: string)
    requires 5 <= i <= 18 && s in PvSuffixes
    ensures !NotExtendedPv(JStr(PvName(i, s)))
  {
    var n := PvName(i, s);
    if i < 10 {
      assert NatToString(i) == [Digit(i)];
      assert n[2] == Digit(i);
    } else {
      assert NatToString(i) == NatToString(1) + [Digit(i % 10)];
      assert NatToString(1) == [Digit(1)];
      assert n[2] == Digit(1) && n[3] == Digit(i % 10);
    }
  }

  /** The default list contains none of the extended names, so extending it appends all
      42 of them in order and it grows from 80 to 122 names. */
  lemma DefaultExtension()
    ensures AppendMissing(DefaultVariables, PvNames()) == DefaultVariables + PvNames()
    ensures |DefaultVariables| == 80 && |AppendMissing(DefaultVariables, PvNames())| == 122
  {
    PvNamesDistinct();
    PvNamesNotDefault();
    AppendMissingFresh(DefaultVariables, PvNames());
  }

  /** No extended name is a default variable. */
  lemma PvNamesNotDefault()
    ensures forall y :: y in PvNames() ==> y !in DefaultVariables
  {
    var names := PvNames();
    DefaultsNotExtended();
    forall y | y in names
      ensures !NotExtendedPv(y)
    {
      var k :| 0 <= k < |names| && names[k] == y;
      PvNamesAt(5 + k / 3);
      assert k == 3 * (k / 3) + k % 3;
      PvNameExtended(5 + k / 3, PvSuffixes[k % 3]);
    }
  }

  /** The three names of PV string i sit at positions 3(i-5), 3(i-5)+1 and 3(i-5)+2. */
  lemma PvNamesAt(i: nat)
    requires 5 <= i < 19
    ensures 3 * (i - 5) + 2 < |PvNames()|
    ensures PvNames()[3 * (i - 5)] == JStr(PvName(i, "Current"))
    ensures PvNames()[3 * (i - 5) + 1] == JStr(PvName(i, "Power"))
    ensures PvNames()[3 * (i - 5) + 2] == JStr(PvName(i, "Volt"))
  {
    var k := 3 * (i - 5);
    assert k / 3 == i - 5 && (k + 1) / 3 == i - 5 && (k + 2) / 3 == i - 5;
    assert k % 3 == 0 && (k + 1) % 3 == 1 && (k + 2) % 3 == 2;
  }

  /** Extending by one more name of `ys`. */
  lemma AppendMissingStep(xs: seq<Json>, ys: seq<Json>, k: nat)
    requires k < |ys|
    ensures AppendMissing(xs, ys[..k + 1]) == AddIfMissing(AppendMissing(xs, ys[..k]), ys[k])
  {
    assert ys[..k + 1][..k] == ys[..k];
  }

  /** The variable list the real-time query sends. Without `extendPv` it is the base list
      unchanged; with it, each extended PV name is appended unless already present. */
  method BuildVariables(extendPv: bool, variables: Json) returns (names: seq<Json>)
    ensures names == if extendPv then AppendMissing(BaseVariables(variables), PvNames())
                     else BaseVariables(variables)
    ensures BaseVariables(variables) <= names
    ensures extendPv ==> forall y :: y in PvNames() ==> y in names
    ensures forall z :: z in names ==> z in BaseVariables(variables) || z in PvNames()
    ensures NoDuplicates(BaseVariables(variables)) ==> NoDuplicates(names)
    ensures forall k :: |BaseVariables(variables)| <= k < |names| ==> names[k] !in BaseVariables(variables)
    ensures extendPv ==> names == BaseVariables(variables) + Missing(BaseVariables(variables), PvNames())
    ensures extendPv ==>
              |names| == |BaseVariables(variables)| + 42 - |Present(BaseVariables(variables), PvNames())|
  {
    if variables.JNull? {
      names := DefaultVariables;
    } else if variables.JList? {
      names := variables.items;
    } else {
      names := [];
    }
    if extendPv {
      names := ExtendPv(names);
    }
    AppendMissingShape(BaseVariables(variables), PvNames());
    AppendMissingAppendsNew(BaseVariables(variables), PvNames());
    PvNamesDistinct();
    AppendMissingFilter(BaseVariables(variables), PvNames());
    AppendMissingLength(BaseVariables(variables), PvNames());
    if NoDuplicates(BaseVariables(variables)) {
      AppendMissingNoDuplicates(BaseVariables(variables), PvNames());
    }
  }

  /** The extension loop: for PV strings 5 to 18, appends the Current, Power and Volt
      names that are not yet present. */
  method ExtendPv(variables: seq<Json>) returns (names: seq<Json>)
    ensures names == AppendMissing(variables, PvNames())
  {
    names := variables;
    ghost var all := PvNames();
    for i := 5 to 19
      invariant names == AppendMissing(variables, all[..3 * (i - 5)])
    {
      var current := JStr("pv" + NatToString(i) + "Current");
      var power := JStr("pv" + NatToString(i) + "Power");
      var volt := JStr("pv" + NatToString(i) + "Volt");
      ghost var k := 3 * (i - 5);
      PvNamesAt(i);
      assert current == all[k] && power == all[k + 1] && volt == all[k + 2];
      AppendMissingStep(variables, all, k);
      if current !in names { names := names + [current]; }
      assert names == AppendMissing(variables, all[..k + 1]);
      AppendMissingStep(variables, all, k + 1);
      if power !in names { names := names + [power]; }
      assert names == AppendMissing(variables, all[..k + 2]);
      AppendMissingStep(variables, all, k + 2);
      if volt !in names { names := names + [volt]; }
    }
    assert all[..42] == all;
  }

  // ---------------------------------------------------------------------------
  // Flattening the real-time response
  // ---------------------------------------------------------------------------

  /** The flattened real-time data: each reported variable mapped to its value. Keys are
      whatever the response gives as `variable`. */
  type FlatMap = map<Json, Json>

  /** A `datas` item that contributes an entry: a dict with both `variable` and `value`. */
  predicate IsEntry(item: Json) {
    item.JObj? && "variable" in item.fields && "value" in item.fields
  }

  /** Item `item` is an entry for variable `key`. */
  predicate IsEntryFor(item: Json, key: Json) {
    IsEntry(item) && item.fields["variable"] == key
  }

  /** Folding the `datas` items into a map in order; an entry whose variable is a list or a
      dict cannot be a key and raises TypeError. */
  function Collect(items: seq<Json>): (r: PyResult<FlatMap>) {
    if items == [] then Returns(map[])
    else
      var item := items[|items| - 1];
      match Collect(items[..|items| - 1])
      case Raises => Raises
      case Returns(m) =>
        if !IsEntry(item) then Returns(m)
        else if !Hashable(item.fields["variable"]) then Raises
        else Returns(m[item.fields["variable"] := item.fields["value"]])
  }

  /** The flattening of a `result`: only `result[0]['datas']` is read, and every other
      shape yields the empty map. */
  function Flatten(result: Json): (r: PyResult<FlatMap>) {
    if !result.JList? || result.items == [] then Returns(map[])
    else
      var first := result.items[0];
      if !first.JObj? || "datas" !in first.fields then Returns(map[])
      else
        var datas := first.fields["datas"];
        if !datas.JList? then Returns(map[]) else Collect(datas.items)
  }

  /** The `datas` items flattening reads: those of `result[0]['datas']` when the result has
      that shape, none otherwise. */
  function DatasItems(result: Json): (items: seq<Json>) {
    if result.JList? && result.items != [] && result.items[0].JObj? && "datas" in result.items[0].fields
       && result.items[0].fields["datas"].JList?
    then result.items[0].fields["datas"].items
    else []
  }

  /** Flattening folds exactly the `datas` items, and every other shape folds nothing. */
  lemma FlattenIsCollect(result: Json)
    ensures Flatten(result) == Collect(DatasItems(result))
  {
  }

  /** Flattening yields the empty map when the result is not a non-empty list, when its
      first element is not a dict, has no `datas`, or has a `datas` that is not a list;
      elements after the first are never looked at. */
  lemma FlattenShapes(result: Json, rest: seq<Json>)
    ensures !result.JList? || result.items == [] ==> Flatten(result) == Returns(map[])
    ensures result.JList? && result.items != [] ==>
              var first := result.items[0];
              (!first.JObj? || "datas" !in first.fields || !first.fields["datas"].JList?) ==>
                Flatten(result) == Returns(map[])
    ensures result.JList? && result.items != [] ==> Flatten(JList([result.items[0]] + rest)) == Flatten(result)
  {
  }

  /** Once an item raises, every longer list raises. */
  lemma {:induction false} CollectRaisesExtends(items: seq<Json>, n: nat)
    requires n <= |items|
    requires Collect(items[..n]) == Raises
    ensures Collect(items) == Raises
    decreases |items| - n
  {
    if n < |items| {
      assert items[..n + 1][..n] == items[..n];
      CollectRaisesExtends(items, n + 1);
    } else {
      assert items[..n] == items;
    }
  }

  /** Flattening raises exactly when some entry names an unhashable variable. */
  lemma {:induction false} CollectRaisesIff(items: seq<Json>)
    ensures Collect(items) == Raises <==>
            exists j :: 0 <= j < |items| && IsEntry(items[j]) && !Hashable(items[j].fields["variable"])
  {
    if items != [] {
      var init := items[..|items| - 1];
      CollectRaisesIff(init);
      assert forall j :: 0 <= j < |init| ==> init[j] == items[j];
    }
  }

  /** The flattened map has a key exactly for the variables some entry names. */
  lemma {:induction false} CollectKeys(items: seq<Json>, m: FlatMap)
    requires Collect(items) == Returns(m)
    ensures forall key :: key in m <==> exists j :: 0 <= j < |items| && IsEntryFor(items[j], key)
  {
    if items != [] {
      var init := items[..|items| - 1];
      var item := items[|items| - 1];
      var m0 := Collect(init).value;
      CollectKeys(init, m0);
      forall key
        ensures key in m <==> exists j :: 0 <= j < |items| && IsEntryFor(items[j], key)
      {
        if key in m && !IsEntryFor(item, key) {
          var j :| 0 <= j < |init| && IsEntryFor(init[j], key);
          assert IsEntryFor(items[j], key);
        }
        if exists j :: 0 <= j < |items| && IsEntryFor(items[j], key) {
          var j :| 0 <= j < |items| && IsEntryFor(items[j], key);
          if j < |init| {
            assert IsEntryFor(init[j], key);
          }
        }
      }
    }
  }

  /** Each key holds the value of the LAST entry naming it: later duplicates overwrite
      earlier ones. */
  lemma {:induction false} CollectLastWins(items: seq<Json>, m: FlatMap, j: nat)
    requires Collect(items) == Returns(m)
    requires j < |items| && IsEntry(items[j])
    requires forall l :: j < l < |items| ==> !IsEntryFor(items[l], items[j].fields["variable"])
    ensures items[j].fields["variable"] in m
    ensures m[items[j].fields["variable"]] == items[j].fields["value"]
  {
    var init := items[..|items| - 1];
    var m0 := Collect(init).value;
    if j < |init| {
      assert init[j] == items[j];
      CollectLastWins(init, m0, j);
    }
  }

  /** The real-time query as a whole: the outcome of the request helper, then flattening;
      a flattening that raises surfaces as an exception outside the client's taxonomy. */
  function RawData(resp: Response): (r: Outcome<FlatMap>) {
    match Request(resp)
    case Err(e) => Err(e)
    case Ok(result) =>
      match Flatten(result)
      case Raises => Err(OtherException)
      case Returns(m) => Ok(m)
  }

  /** Flattening `result` as the client does, with a loop over the `datas` items. */
  method FlattenResult(result: Json) returns (r: PyResult<FlatMap>)
    ensures r == Flatten(result)
  {
    var processed: FlatMap := map[];
    if result.JList? && |result.items| > 0 {
      var first := result.items[0];
      if first.JObj? && "datas" in first.fields {
        var datas := first.fields["datas"];
        if datas.JList? {
          var items := datas.items;
          var i := 0;
          while i < |items|
            invariant 0 <= i <= |items|
            invariant Collect(items[..i]) == Returns(processed)
          {
            var item := items[i];
            assert items[..i + 1][..i] == items[..i];
            if item.JObj? && "variable" in item.fields && "value" in item.fields {
              var variable := item.fields["variable"];
              if variable.JList? || variable.JObj? {
                CollectRaisesExtends(items, i + 1);
                return Raises;
              }
              processed := processed[variable := item.fields["value"]];
            }
            i := i + 1;
          }
          assert items[..i] == items;
        }
      }
    }
    return Returns(processed);
  }

  /** The real-time query: builds the variable list that is sent, then classifies and
      flattens the response. */
  method GetRawData(extendPv: bool, variables: Json, resp: Response)
    returns (sent: seq<Json>, r: Outcome<FlatMap>)
    ensures sent == if extendPv then AppendMissing(BaseVariables(variables), PvNames())
                    else BaseVariables(variables)
    ensures BaseVariables(variables) <= sent
    ensures extendPv ==> forall y :: y in PvNames() ==> y in sent
    ensures r == RawData(resp)
  {
    sent := BuildVariables(extendPv, variables);
    var outcome := Request(resp);
    match outcome {
      case Err(e) => r := Err(e);
      case Ok(result) =>
        var flat := FlattenResult(result);
        match flat {
          case Raises => r := Err(OtherException);
          case Returns(m) => r := Ok(m);
        }
    }
  }

  // ---------------------------------------------------------------------------
  // Request signing
  // ---------------------------------------------------------------------------

  /** The language every request is signed with. */
  const DefaultLang: string := "en"

  const UserAgent: string :=
    "Mozilla/5.0 (Windows NT 10.0; Win64; x64) AppleWebKit/537.36 (KHTML, like Gecko) Chrome/117.0.0.0 Safari/537.36"

  /** The separator of the signed text: a backslash, 'r', a backslash, 'n' (four
      characters, not a carriage return and a line feed). */
  const Separator: string := "\\r\\n"

  /** ASCII upper-casing of one character. */
  function UpperChar(c: char): char {
    if 'a' <= c <= 'z' then (c as int - 32) as char else c
  }

  /** Upper-casing of a string, character by character. */
  function Upper(s: string): (r: string)
    ensures |r| == |s|
    ensures IsLowerHex(s) ==> IsUpperHex(r)
  {
    seq(|s|, k requires 0 <= k < |s| => UpperChar(s[k]))
  }

  predicate IsLowerHex(s: string) {
    forall k :: 0 <= k < |s| ==> IsDigit(s[k]) || 'a' <= s[k] <= 'f'
  }

  predicate IsUpperHex(s: string) {
    forall k :: 0 <= k < |s| ==> IsDigit(s[k]) || 'A' <= s[k] <= 'F'
  }

  /** The hex MD5 digest of `text`; `md5Hex` is the lowercase digest of the text. */
  function Md5c(text: string, kind: string, md5Hex: string -> string): string {
    if kind == "upper" then Upper(md5Hex(text)) else md5Hex(text)
  }

  /** The "upper" digest is the upper-casing of the default one; upper-casing a lowercase
      hex digest gives an uppercase hex digest and loses nothing (distinct digests stay
      distinct). */
  lemma Md5cUpper(text: string, other: string, md5Hex: string -> string)
    requires other != "upper"
    requires IsLowerHex(md5Hex(text))
    ensures Md5c(text, "upper", md5Hex) == Upper(Md5c(text, other, md5Hex))
    ensures IsUpperHex(Md5c(text, "upper", md5Hex))
    ensures forall d :: IsLowerHex(d) && |d| == |md5Hex(text)| && Upper(d) == Md5c(text, "upper", md5Hex)
              ==> d == md5Hex(text)
  {
    var h := md5Hex(text);
    forall d | IsLowerHex(d) && |d| == |h| && Upper(d) == Upper(h)
      ensures d == h
    {
      forall k | 0 <= k < |d|
        ensures d[k] == h[k]
      {
        assert Upper(d)[k] == UpperChar(d[k]) && Upper(h)[k] == UpperChar(h[k]);
        assert UpperChar(d[k]) == UpperChar(h[k]);
      }
    }
  }

  /** The client's own example: with "hello_world" hashing to 8d777f..., the default kind
      gives that digest and the "upper" kind its uppercase form. */
  lemma Md5cExamples(md5Hex: string -> string)
    requires md5Hex("hello_world") == "8d777f385d3dfec8815d20f7496026dc"
    ensures Md5c("hello_world", "lower", md5Hex) == "8d777f385d3dfec8815d20f7496026dc"
    ensures Md5c("hello_world", "upper", md5Hex) == "8D777F385D3DFEC8815D20F7496026DC"
  {
    assert Upper("8d777f385d3dfec8815d20f7496026dc") == "8D777F385D3DFEC8815D20F7496026DC";
  }

  /** The text that is signed: path, token and timestamp joined by Separator. */
  function SignaturePlain(path: string, token: string, timestamp: string): string {
    path + Separator + token + Separator + timestamp
  }

  /** The signed text splits back into its three parts at the two separators. */
  lemma SignaturePlainParts(path: string, token: string, timestamp: string)
    ensures var p := SignaturePlain(path, token, timestamp);
            && |p| == |path| + |token| + |timestamp| + 8
            && p[..|path|] == path
            && p[|path|..|path| + 4] == Separator
            && p[|path| + 4..|path| + 4 + |token|] == token
            && p[|path| + 4 + |token|..|path| + 8 + |token|] == Separator
            && p[|path| + 8 + |token|..] == timestamp
  {
  }

  /** The headers of a request to `path` signed with `token` at clock reading `millis`
      (milliseconds since the epoch). The request helper always signs with the default
      language, DefaultLang. */
  function Headers(path: string, token: string, millis: nat, lang: string, md5Hex: string -> string)
    : (h: map<string, string>)
  {
    var timestamp := NatToString(millis);
    map[
      "User-Agent" := UserAgent,
      "token" := token,
      "timestamp" := timestamp,
      "signature" := Md5c(SignaturePlain(path, token, timestamp), "lower", md5Hex),
      "Content-Type" := "application/json",
      "lang" := lang,
      "Connection" := "close"
    ]
  }

  /** The headers the request helper sends: signed for the path in the default language. */
  function RequestHeaders(path: string, token: string, millis: nat, md5Hex: string -> string): (h: map<string, string>)
    ensures "lang" in h && h["lang"] == "en"
    ensures "token" in h && h["token"] == token
  {
    Headers(path, token, millis, DefaultLang, md5Hex)
  }

  /** The headers carry the token, a timestamp that reads back as the clock value, and the
      lowercase digest of exactly path, token and that timestamp. */
  lemma HeadersSigned(path: string, token: string, millis: nat, lang: string, md5Hex: string -> string)
    ensures var h := Headers(path, token, millis, lang, md5Hex);
            && h.Keys == {"User-Agent", "token", "timestamp", "signature", "Content-Type", "lang", "Connection"}
            && h["token"] == token && h["lang"] == lang
            && h["User-Agent"] == UserAgent && h["Content-Type"] == "application/json" && h["Connection"] == "close"
            && AllDigits(h["timestamp"]) && ParseDigits(h["timestamp"]) == millis
            && h["signature"] == md5Hex(SignaturePlain(path, token, h["timestamp"]))
  {
    ParseNatToString(millis);
  }
}
