/** The request and response schemas of the Outline management API (pydantic v2 models).
    Each model is a record, a validity predicate stating its field constraints, the JSON
    object it dumps to, and a parser `Parse<Model>` that plays `Model(**fields)`: it accepts
    the keyword arguments or rejects them with a violation. Unknown keys are ignored;
    every declared key is required, including `Optional[...]` ones, which may hold null. */
module Models {
  import opened Results
  import opened Json

  /** The first constraint a payload breaks, named by the field that breaks it. */
  datatype Violation =
    | Missing(field: string)    // a required key is absent
    | WrongType(field: string)  // the value is not of the declared type
    | OutOfRange(field: string) // a `ge` / `le` bound is broken
    | TooShort(field: string)   // a `min_length=1` string is empty
    | ValueError(field: string) // a field validator raised ValueError

  // ---------------------------------------------------------------------------
  // Field readers: one per kind of declared field.

  /** `key: str` */
  function StrField(m: map<string, Json>, key: string): Result<string, Violation> {
    if key !in m then Failure(Missing(key))
    else if m[key].JString? then Success(m[key].s)
    else Failure(WrongType(key))
  }

  /** `key: str = Field(..., min_length=1)` (also `SecretStr`, taken as a plain string) */
  function NonEmptyStrField(m: map<string, Json>, key: string): Result<string, Violation> {
    var s :- StrField(m, key);
    if |s| >= 1 then Success(s) else Failure(TooShort(key))
  }

  /** `key: bool` */
  function BoolField(m: map<string, Json>, key: string): Result<bool, Violation> {
    if key !in m then Failure(Missing(key))
    else if m[key].JBool? then Success(m[key].b)
    else Failure(WrongType(key))
  }

  /** `key: int = Field(ge=lo)` */
  function IntAtLeast(m: map<string, Json>, key: string, lo: int): Result<int, Violation> {
    if key !in m then Failure(Missing(key))
    else if !m[key].JInt? then Failure(WrongType(key))
    else if m[key].i < lo then Failure(OutOfRange(key))
    else Success(m[key].i)
  }

  /** `key: int = Field(ge=lo, le=hi)` */
  function IntBetween(m: map<string, Json>, key: string, lo: int, hi: int): Result<int, Violation> {
    var i :- IntAtLeast(m, key, lo);
    if i <= hi then Success(i) else Failure(OutOfRange(key))
  }

  /** `key: Optional[str]` with no default: required, null allowed */
  function OptStrField(m: map<string, Json>, key: string): Result<Option<string>, Violation> {
    if key !in m then Failure(Missing(key))
    else if m[key].JNull? then Success(None)
    else if m[key].JString? then Success(Some(m[key].s))
    else Failure(WrongType(key))
  }

  /** `key: Optional[int] = Field(..., ge=lo, le=hi)`: required, null allowed, bounds on ints */
  function OptIntBetween(m: map<string, Json>, key: string, lo: int, hi: int): Result<Option<int>, Violation> {
    if key !in m then Failure(Missing(key))
    else if m[key].JNull? then Success(None)
    else if !m[key].JInt? then Failure(WrongType(key))
    else if lo <= m[key].i <= hi then Success(Some(m[key].i))
    else Failure(OutOfRange(key))
  }

  function OptStr(o: Option<string>): Json {
    match o
    case None => JNull
    case Some(s) => JString(s)
  }

  function OptInt(o: Option<int>): Json {
    match o
    case None => JNull
    case Some(i) => JInt(i)
  }

  /** The port range of every port field except the one in `AccessKeyCreateRequest`. */
  predicate ValidPort(p: int) {
    1 <= p <= 65535
  }

  // ---------------------------------------------------------------------------
  // Server

  datatype Server = Server(
    name: string,
    serverId: string,
    metricsEnabled: bool,
    createdTimestampMs: int,
    portForNewAccessKeys: int)

  predicate ValidServer(s: Server) {
    s.createdTimestampMs >= 0 && ValidPort(s.portForNewAccessKeys)
  }

  function ServerFields(s: Server): map<string, Json> {
    map[
      "name" := JString(s.name),
      "serverId" := JString(s.serverId),
      "metricsEnabled" := JBool(s.metricsEnabled),
      "createdTimestampMs" := JInt(s.createdTimestampMs),
      "portForNewAccessKeys" := JInt(s.portForNewAccessKeys)]
  }

  const ServerKeys: set<string> :=
    {"name", "serverId", "metricsEnabled", "createdTimestampMs", "portForNewAccessKeys"}

  function ParseServer(m: map<string, Json>): (r: Result<Server, Violation>)
    ensures r.Success? ==> ValidServer(r.value) && Agrees(ServerFields(r.value), m)
  {
    var name :- StrField(m, "name");
    var serverId :- StrField(m, "serverId");
    var metricsEnabled :- BoolField(m, "metricsEnabled");
    var created :- IntAtLeast(m, "createdTimestampMs", 0);
    var port :- IntBetween(m, "portForNewAccessKeys", 1, 65535);
    Success(Server(name, serverId, metricsEnabled, created, port))
  }

  /** Any valid server whose fields the payload carries is accepted, fields unchanged. */
  lemma ParseServerComplete(m: map<string, Json>, s: Server)
    requires ValidServer(s) && Agrees(ServerFields(s), m)
    ensures ParseServer(m) == Success(s)
  {
    var f := ServerFields(s);
    assert "name" in f && "serverId" in f && "metricsEnabled" in f;
    assert "createdTimestampMs" in f && "portForNewAccessKeys" in f;
  }

  /** A payload lacking any of the five keys (for one, a payload of unknown keys only) is rejected. */
  lemma ServerMissingKeyRejected(m: map<string, Json>, key: string)
    requires key in ServerKeys && key !in m
    ensures ParseServer(m).Failure?
  {
    var r := ParseServer(m);
    assert r.Success? ==> key in ServerFields(r.value);
  }

  // ---------------------------------------------------------------------------
  // DataLimit

  datatype DataLimit = DataLimit(bytes: int)

  predicate ValidDataLimit(d: DataLimit) {
    d.bytes >= 0
  }

  function DataLimitFields(d: DataLimit): map<string, Json> {
    map["bytes" := JInt(d.bytes)]
  }

  function ParseDataLimit(m: map<string, Json>): (r: Result<DataLimit, Violation>)
    ensures r.Success? ==> ValidDataLimit(r.value) && Agrees(DataLimitFields(r.value), m)
  {
    var bytes :- IntAtLeast(m, "bytes", 0);
    Success(DataLimit(bytes))
  }

  lemma ParseDataLimitComplete(m: map<string, Json>, d: DataLimit)
    requires ValidDataLimit(d) && Agrees(DataLimitFields(d), m)
    ensures ParseDataLimit(m) == Success(d)
  {
    assert "bytes" in DataLimitFields(d);
  }

  // ---------------------------------------------------------------------------
  // AccessKey

  datatype AccessKey = AccessKey(
    id: string,
    name: string,
    password: string,
    port: int,
    cipher: string,  // the key "method": the encryption method
    accessUrl: string)

  predicate ValidAccessKey(k: AccessKey) {
    |k.password| >= 1 && ValidPort(k.port) && |k.accessUrl| >= 1
  }

  function AccessKeyFields(k: AccessKey): map<string, Json> {
    map[
      "id" := JString(k.id),
      "name" := JString(k.name),
      "password" := JString(k.password),
      "port" := JInt(k.port),
      "method" := JString(k.cipher),
      "accessUrl" := JString(k.accessUrl)]
  }

  function ParseAccessKey(m: map<string, Json>): (r: Result<AccessKey, Violation>)
    ensures r.Success? ==> ValidAccessKey(r.value) && Agrees(AccessKeyFields(r.value), m)
  {
    var id :- StrField(m, "id");
    var name :- StrField(m, "name");
    var password :- NonEmptyStrField(m, "password");
    var port :- IntBetween(m, "port", 1, 65535);
    var cipher :- StrField(m, "method");
    var accessUrl :- NonEmptyStrField(m, "accessUrl");
    Success(AccessKey(id, name, password, port, cipher, accessUrl))
  }

  lemma ParseAccessKeyComplete(m: map<string, Json>, k: AccessKey)
    requires ValidAccessKey(k) && Agrees(AccessKeyFields(k), m)
    ensures ParseAccessKey(m) == Success(k)
  {
    var f := AccessKeyFields(k);
    assert "id" in f && "name" in f && "password" in f;
    assert "port" in f && "method" in f && "accessUrl" in f;
  }

  // ---------------------------------------------------------------------------
  // ServerPort

  datatype ServerPort = ServerPort(port: int)

  predicate ValidServerPort(p: ServerPort) {
    ValidPort(p.port)
  }

  function ServerPortFields(p: ServerPort): map<string, Json> {
    map["port" := JInt(p.port)]
  }

  function ParseServerPort(m: map<string, Json>): (r: Result<ServerPort, Violation>)
    ensures r.Success? ==> ValidServerPort(r.value) && Agrees(ServerPortFields(r.value), m)
  {
    var port :- IntBetween(m, "port", 1, 65535);
    Success(ServerPort(port))
  }

  lemma ParseServerPortComplete(m: map<string, Json>, p: ServerPort)
    requires ValidServerPort(p) && Agrees(ServerPortFields(p), m)
    ensures ParseServerPort(m) == Success(p)
  {
    assert "port" in ServerPortFields(p);
  }

  // ---------------------------------------------------------------------------
  // AccessKeyCreateRequest

  datatype AccessKeyCreateRequest = AccessKeyCreateRequest(
    name: Option<string>,
    password: Option<string>,
    port: Option<int>)

  /** Unlike every other port field, 0 is allowed here. */
  predicate ValidAccessKeyCreateRequest(q: AccessKeyCreateRequest) {
    q.port.Some? ==> 0 <= q.port.value <= 65535
  }

  /** `model_dump(mode="json")`: all three keys, null for an absent value. */
  function AccessKeyCreateRequestFields(q: AccessKeyCreateRequest): map<string, Json> {
    map["name" := OptStr(q.name), "password" := OptStr(q.password), "port" := OptInt(q.port)]
  }

  const AccessKeyCreateRequestKeys: set<string> := {"name", "password", "port"}

  function ParseAccessKeyCreateRequest(m: map<string, Json>): (r: Result<AccessKeyCreateRequest, Violation>)
    ensures r.Success? ==>
      ValidAccessKeyCreateRequest(r.value) && Agrees(AccessKeyCreateRequestFields(r.value), m)
  {
    var name :- OptStrField(m, "name");
    var password :- OptStrField(m, "password");
    var port :- OptIntBetween(m, "port", 0, 65535);
    Success(AccessKeyCreateRequest(name, password, port))
  }

  lemma ParseAccessKeyCreateRequestComplete(m: map<string, Json>, q: AccessKeyCreateRequest)
    requires ValidAccessKeyCreateRequest(q) && Agrees(AccessKeyCreateRequestFields(q), m)
    ensures ParseAccessKeyCreateRequest(m) == Success(q)
  {
    var f := AccessKeyCreateRequestFields(q);
    assert "name" in f && "password" in f && "port" in f;
  }

  /** The three keys must be present even though each may hold null. */
  lemma CreateRequestMissingKeyRejected(m: map<string, Json>, key: string)
    requires key in AccessKeyCreateRequestKeys && key !in m
    ensures ParseAccessKeyCreateRequest(m).Failure?
  {
    var r := ParseAccessKeyCreateRequest(m);
    assert r.Success? ==> key in AccessKeyCreateRequestFields(r.value);
  }

  /** Port 0 passes in a create request and fails in every other port field. */
  lemma PortZeroOnlyInCreateRequest(name: Option<string>, password: Option<string>, m: map<string, Json>)
    requires "port" in m && m["port"] == JInt(0)
    ensures ParseAccessKeyCreateRequest(m["name" := OptStr(name)]["password" := OptStr(password)]).Success?
    ensures ParseServerPort(m).Failure? && ParseAccessKey(m).Failure?
    ensures ParseServer(m["portForNewAccessKeys" := JInt(0)]).Failure?
  {
    var q := AccessKeyCreateRequest(name, password, Some(0));
    ParseAccessKeyCreateRequestComplete(m["name" := OptStr(name)]["password" := OptStr(password)], q);
  }

  // ---------------------------------------------------------------------------
  // AccessKeyList

  datatype AccessKeyList = AccessKeyList(accessKeys: seq<AccessKey>)

  predicate ValidAccessKeyList(l: AccessKeyList) {
    forall i :: 0 <= i < |l.accessKeys| ==> ValidAccessKey(l.accessKeys[i])
  }

  /** One element of `accessKeys`: it must be an object that validates as an `AccessKey`. */
  function ParseAccessKeyItem(j: Json): (r: Result<AccessKey, Violation>)
    ensures r.Success? <==> j.JObject? && ParseAccessKey(j.fields).Success?
    ensures r.Success? ==> r == ParseAccessKey(j.fields)
  {
    if j.JObject? then ParseAccessKey(j.fields) else Failure(WrongType("accessKeys"))
  }

  /** `List[AccessKey]`: valid iff every element is, keeping length and order. */
  function ParseAccessKeyItems(items: seq<Json>): (r: Result<seq<AccessKey>, Violation>)
    ensures r.Success? ==> |r.value| == |items|
    ensures r.Success? ==> forall i :: 0 <= i < |items| ==> ParseAccessKeyItem(items[i]) == Success(r.value[i])
    ensures r.Failure? ==> exists i :: 0 <= i < |items| && ParseAccessKeyItem(items[i]).Failure?
  {
    if items == [] then Success([])
    else
      var first :- ParseAccessKeyItem(items[0]);
      var rest :- ParseAccessKeyItems(items[1..]);
      assert forall i :: 1 <= i < |items| ==> items[i] == items[1..][i - 1];
      Success([first] + rest)
  }

  /** Element-wise success gives list success, with exactly those elements. */
  lemma {:induction false} ParseAccessKeyItemsComplete(items: seq<Json>, keys: seq<AccessKey>)
    requires |items| == |keys|
    requires forall i :: 0 <= i < |items| ==> ParseAccessKeyItem(items[i]) == Success(keys[i])
    ensures ParseAccessKeyItems(items) == Success(keys)
  {
    if items != [] {
      assert forall i :: 0 <= i < |items| - 1 ==> items[1..][i] == items[i + 1] && keys[1..][i] == keys[i + 1];
      ParseAccessKeyItemsComplete(items[1..], keys[1..]);
      assert keys == [keys[0]] + keys[1..];
    }
  }

  function ParseAccessKeyList(m: map<string, Json>): (r: Result<AccessKeyList, Violation>)
    ensures r.Success? <==>
      "accessKeys" in m && m["accessKeys"].JArray? &&
      forall i :: 0 <= i < |m["accessKeys"].items| ==> ParseAccessKeyItem(m["accessKeys"].items[i]).Success?
    ensures r.Success? ==> ValidAccessKeyList(r.value) && |r.value.accessKeys| == |m["accessKeys"].items|
    ensures r.Success? ==> forall i :: 0 <= i < |r.value.accessKeys| ==>
      ParseAccessKeyItem(m["accessKeys"].items[i]) == Success(r.value.accessKeys[i])
  {
    if "accessKeys" !in m then Failure(Missing("accessKeys"))
    else if !m["accessKeys"].JArray? then Failure(WrongType("accessKeys"))
    else
      var items := m["accessKeys"].items;
      var keys :- ParseAccessKeyItems(items);
      Success(AccessKeyList(keys))
  }

  // ---------------------------------------------------------------------------
  // MetricsEnabled

  datatype MetricsEnabled = MetricsEnabled(enabled: bool)

  function MetricsEnabledFields(e: MetricsEnabled): map<string, Json> {
    map["enabled" := JBool(e.enabled)]
  }

  function ParseMetricsEnabled(m: map<string, Json>): (r: Result<MetricsEnabled, Violation>)
    ensures r.Success? <==> "enabled" in m && m["enabled"].JBool?
    ensures r.Success? ==> Agrees(MetricsEnabledFields(r.value), m)
  {
    var enabled :- BoolField(m, "enabled");
    Success(MetricsEnabled(enabled))
  }

  // ---------------------------------------------------------------------------
  // Metrics

  datatype Metrics = Metrics(bytesTransferredByUserId: map<string, int>)

  const MetricsKey: string := "bytesTransferredByUserId"

  /** What `validate_bytes_transferred` checks. */
  predicate NonNegativeValues(bytes: map<string, int>) {
    forall u :: u in bytes ==> bytes[u] >= 0
  }

  predicate ValidMetrics(x: Metrics) {
    "" !in x.bytesTransferredByUserId && NonNegativeValues(x.bytesTransferredByUserId)
  }

  function MetricsFields(x: Metrics): map<string, Json> {
    map[MetricsKey := JObject(map u | u in x.bytesTransferredByUserId :: JInt(x.bytesTransferredByUserId[u]))]
  }

  /** `Dict[constr(min_length=1), int]` checked first, then the field validator. */
  function ParseMetrics(m: map<string, Json>): (r: Result<Metrics, Violation>)
    ensures r.Success? ==> ValidMetrics(r.value) && Agrees(MetricsFields(r.value), m)
  {
    if MetricsKey !in m then Failure(Missing(MetricsKey))
    else if !m[MetricsKey].JObject? then Failure(WrongType(MetricsKey))
    else
      var d := m[MetricsKey].fields;
      if "" in d then Failure(TooShort(MetricsKey))
      else if !(forall u :: u in d ==> d[u].JInt?) then Failure(WrongType(MetricsKey))
      else
        var bytes := map u | u in d :: d[u].i;
        if !NonNegativeValues(bytes) then Failure(ValueError(MetricsKey))
        else
          assert (map u | u in bytes :: JInt(bytes[u])) == d;
          Success(Metrics(bytes))
  }

  /** A valid mapping is returned with exactly the same user ids and byte counts. */
  lemma ParseMetricsComplete(m: map<string, Json>, x: Metrics)
    requires ValidMetrics(x) && Agrees(MetricsFields(x), m)
    ensures ParseMetrics(m) == Success(x)
  {
    assert MetricsKey in MetricsFields(x);
    var d := m[MetricsKey].fields;
    assert (map u | u in d :: d[u].i) == x.bytesTransferredByUserId;
  }

  /** A negative byte count for any user rejects the whole payload. */
  lemma NegativeBytesRejected(m: map<string, Json>, user: string)
    requires MetricsKey in m && m[MetricsKey].JObject?
    requires user in m[MetricsKey].fields && m[MetricsKey].fields[user].JInt? && m[MetricsKey].fields[user].i < 0
    ensures ParseMetrics(m).Failure?
  {
    var d := m[MetricsKey].fields;
    if "" !in d && forall u :: u in d ==> d[u].JInt? {
      var bytes := map u | u in d :: d[u].i;
      assert bytes[user] < 0;
    }
  }

  /** `Metrics.validate_bytes_transferred`: walks the mapping, raises ValueError at the first
      negative count, and otherwise hands the mapping back unchanged. */
  method ValidateBytesTransferred(value: map<string, int>) returns (r: Result<map<string, int>, Violation>)
    ensures r.Success? <==> NonNegativeValues(value)
    ensures r.Success? ==> r.value == value
    ensures r.Failure? ==> r.error == ValueError(MetricsKey)
  {
    var pending := value.Keys;
    while pending != {}
      invariant pending <= value.Keys
      invariant forall u :: u in value && u !in pending ==> value[u] >= 0
      decreases pending
    {
      var u :| u in pending;
      if value[u] < 0 {
        return Failure(ValueError(MetricsKey));
      }
      pending := pending - {u};
    }
    return Success(value);
  }
}
