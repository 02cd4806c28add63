/** `PyOutlineWrapper`: the client of the Outline management API. Each operation makes one
    request through `_request` and validates the response body against its schema.
    The network is a parameter: an operation is given the `Outcome` the session would
    produce for its request, and the requests handed to the session are kept in a ghost log. */
module Client {
  import opened Results
  import opened Json
  import opened Models

  /** The exception an operation ends with. `ValidationError` is a subclass of `APIError`
      in the package's exception hierarchy; `TypeError` is Python's, raised when a response
      body is not a JSON object, and no handler in the client catches it. Each failure is
      exactly one of the three. */
  datatype Error =
    | APIError(url: string)
    | ValidationError
    | TypeError

  datatype Response = Response(status: int, body: Json)

  /** What the session does with one request: raise a `requests.RequestException`, or answer. */
  datatype Outcome = TransportFail(reason: string) | Received(response: Response)

  /** One `session.request(verb, url, json=json, verify=verify)` call. */
  datatype HttpRequest = HttpRequest(verb: string, url: string, json: Option<Json>, verify: bool)

  function Url(apiUrl: string, endpoint: string): string {
    apiUrl + "/" + endpoint
  }

  /** `response.raise_for_status()` raises for 4xx and 5xx. */
  predicate IsHttpError(status: int) {
    400 <= status < 600
  }

  /** The outcome reached `_request`'s `return response`. */
  predicate Delivered(outcome: Outcome) {
    outcome.Received? && !IsHttpError(outcome.response.status)
  }

  /** What `_request` returns or raises for a given network outcome. */
  function Dispatch(url: string, outcome: Outcome): (r: Result<Response, Error>)
    ensures r.Success? <==> Delivered(outcome)
    ensures r.Success? ==> r.value == outcome.response
    ensures r.Failure? ==> r.error == APIError(url)
  {
    match outcome
    case TransportFail(_) => Failure(APIError(url))
    case Received(response) =>
      if IsHttpError(response.status) then Failure(APIError(url)) else Success(response)
  }

  /** `except PydanticValidationError: raise ValidationError(...)` */
  function AsValidation<T>(r: Result<T, Violation>): Result<T, Error> {
    match r
    case Success(v) => Success(v)
    case Failure(_) => Failure(ValidationError)
  }

  /** `Model(**response.json())` under that handler. */
  function Validate<T>(body: Json, parse: map<string, Json> -> Result<T, Violation>): (r: Result<T, Error>)
    ensures r.Success? <==> body.JObject? && parse(body.fields).Success?
    ensures r.Success? ==> r.value == parse(body.fields).value
    ensures r.Failure? ==> (r.error.TypeError? <==> !body.JObject?)
    ensures r.Failure? ==> !r.error.APIError?
  {
    match body
    case JObject(fields) => AsValidation(parse(fields))
    case _ => Failure(TypeError)
  }

  /** One `_request` and one parse: the result of every operation that parses a response. */
  function Fetch<T>(url: string, outcome: Outcome, parse: map<string, Json> -> Result<T, Violation>): (r: Result<T, Error>)
    ensures r.Success? <==>
      Delivered(outcome) && outcome.response.body.JObject? && parse(outcome.response.body.fields).Success?
    ensures r.Success? ==> r.value == parse(outcome.response.body.fields).value
    ensures r.Failure? ==> (r.error.APIError? <==> !Delivered(outcome))
    ensures r.Failure? && r.error.APIError? ==> r.error.url == url
    ensures r.Failure? ==> (r.error.TypeError? <==> Delivered(outcome) && !outcome.response.body.JObject?)
  {
    var response :- Dispatch(url, outcome);
    Validate(response.body, parse)
  }

  // ---------------------------------------------------------------------------
  // create_access_key

  /** The argument dict with every None dropped. */
  function NonNullArgs(name: Option<string>, password: Option<string>, port: Option<int>): map<string, Json> {
    (if name.Some? then map["name" := JString(name.value)] else map[])
    + (if password.Some? then map["password" := JString(password.value)] else map[])
    + (if port.Some? then map["port" := JInt(port.value)] else map[])
  }

  /** The request body of `create_access_key`, or the ValidationError raised before any request.
      No arguments give no body, not `{}`. Because the create-request schema requires all three
      keys, only a full set of arguments with a port in [0, 65535] passes validation. */
  function CreateBody(name: Option<string>, password: Option<string>, port: Option<int>): (r: Result<Option<Json>, Error>)
    ensures r.Success? && r.value.None? <==> name.None? && password.None? && port.None?
    ensures r.Success? && r.value.Some? <==>
      name.Some? && password.Some? && port.Some? && 0 <= port.value <= 65535
    ensures r.Success? && r.value.Some? ==>
      r.value.value == JObject(map[
        "name" := JString(name.value),
        "password" := JString(password.value),
        "port" := JInt(port.value)])
    ensures r.Failure? ==> r.error == ValidationError
  {
    var args := NonNullArgs(name, password, port);
    assert (name.Some? ==> "name" in args) && (password.Some? ==> "password" in args) && (port.Some? ==> "port" in args);
    if args == map[] then Success(None)
    else
      var request :- AsValidation(ParseAccessKeyCreateRequest(args));
      Success(Some(JObject(AccessKeyCreateRequestFields(request))))
  }

  /** The explicit `AccessKey(id=data['id'], name=data.get('name'), ...)` built from a 201 body:
      a missing key is a KeyError, turned into ValidationError; indexing a non-object raises
      TypeError, which escapes. */
  function CreatedKey(body: Json): (r: Result<AccessKey, Error>)
    ensures r.Success? ==>
      body.JObject? && ValidAccessKey(r.value) && Agrees(AccessKeyFields(r.value), body.fields)
    ensures r.Failure? ==> r.error == if body.JObject? then ValidationError else TypeError
  {
    match body
    case JObject(data) =>
      if "id" !in data || "password" !in data || "port" !in data || "method" !in data || "accessUrl" !in data then
        Failure(ValidationError)
      else
        var kwargs := map[
          "id" := data["id"],
          "name" := if "name" in data then data["name"] else JNull,
          "password" := data["password"],
          "port" := data["port"],
          "method" := data["method"],
          "accessUrl" := data["accessUrl"]];
        assert forall k :: k in kwargs && k != "name" ==> k in data && kwargs[k] == data[k];
        AsValidation(ParseAccessKey(kwargs))
    case _ => Failure(TypeError)
  }

  /** With `SecretStr` taken as a plain string, building the key field by field accepts and
      rejects exactly what `AccessKey(**data)` does. */
  lemma CreatedKeyIsAccessKeyModel(data: map<string, Json>)
    ensures CreatedKey(JObject(data)) == AsValidation(ParseAccessKey(data))
  {
    var direct := ParseAccessKey(data);
    var built := CreatedKey(JObject(data));
    if direct.Success? {
      var f := AccessKeyFields(direct.value);
      assert "id" in f && "name" in f && "password" in f && "port" in f && "method" in f && "accessUrl" in f;
      var kwargs := map[
        "id" := data["id"], "name" := data["name"], "password" := data["password"],
        "port" := data["port"], "method" := data["method"], "accessUrl" := data["accessUrl"]];
      ParseAccessKeyComplete(kwargs, direct.value);
    } else if built.Success? {
      var f := AccessKeyFields(built.value);
      assert "id" in f && "name" in f && "password" in f && "port" in f && "method" in f && "accessUrl" in f;
      ParseAccessKeyComplete(data, built.value);
    }
  }

  /** What `create_access_key` returns or raises, given the network outcome of its POST. */
  function CreateAccessKeyResult(url: string, name: Option<string>, password: Option<string>, port: Option<int>,
                                 outcome: Outcome): (r: Result<AccessKey, Error>)
    ensures CreateBody(name, password, port).Failure? ==> r == Failure(ValidationError)
    ensures CreateBody(name, password, port).Success? && !Delivered(outcome) ==> r == Failure(APIError(url))
    ensures CreateBody(name, password, port).Success? && Delivered(outcome) && outcome.response.status != 201 ==>
      r == Failure(ValidationError)
    ensures CreateBody(name, password, port).Success? && Delivered(outcome) && outcome.response.status == 201 ==>
      r == CreatedKey(outcome.response.body)
    ensures r.Success? ==>
      Delivered(outcome) && outcome.response.status == 201 && outcome.response.body.JObject? &&
      ValidAccessKey(r.value) && Agrees(AccessKeyFields(r.value), outcome.response.body.fields)
  {
    var _ :- CreateBody(name, password, port);
    var response :- Dispatch(url, outcome);
    if response.status == 201 then CreatedKey(response.body) else Failure(ValidationError)
  }

  /** For any argument set that passes validation (among them no arguments at all, which
      send no body), a 201 answer carrying a valid key yields exactly that key. */
  lemma CreateAccessKeyReturnsKey(url: string, name: Option<string>, password: Option<string>, port: Option<int>,
                                  data: map<string, Json>, k: AccessKey)
    requires CreateBody(name, password, port).Success?
    requires ValidAccessKey(k) && Agrees(AccessKeyFields(k), data)
    ensures CreateAccessKeyResult(url, name, password, port, Received(Response(201, JObject(data)))) == Success(k)
  {
    CreatedKeyIsAccessKeyModel(data);
    ParseAccessKeyComplete(data, k);
  }

  /** A 201 answer whose body lacks `accessUrl` raises ValidationError, whatever the arguments. */
  lemma CreateAccessKeyRejectsMissingAccessUrl(url: string, name: Option<string>, password: Option<string>,
                                               port: Option<int>, data: map<string, Json>)
    requires CreateBody(name, password, port).Success?
    requires "accessUrl" !in data
    ensures CreateAccessKeyResult(url, name, password, port, Received(Response(201, JObject(data)))) == Failure(ValidationError)
  {
  }

  // ---------------------------------------------------------------------------
  // The client object

  class PyOutlineWrapper {
    const apiUrl: string
    const certSha256: string
    const verifyTls: bool
    /** The requests handed to the session, oldest first. */
    ghost var log: seq<HttpRequest>

    constructor (apiUrl: string, certSha256: string, verifyTls: bool := true)
      ensures this.apiUrl == apiUrl && this.certSha256 == certSha256 && this.verifyTls == verifyTls
      ensures log == []
    {
      this.apiUrl := apiUrl;
      this.certSha256 := certSha256;
      this.verifyTls := verifyTls;
      log := [];
    }

    /** `_request`: one call to `apiUrl/endpoint`; transport failures and 4xx/5xx become APIError. */
    method Request(verb: string, endpoint: string, json: Option<Json>, outcome: Outcome)
      returns (r: Result<Response, Error>)
      modifies this
      ensures log == old(log) + [HttpRequest(verb, Url(apiUrl, endpoint), json, verifyTls)]
      ensures r.Success? <==> Delivered(outcome)
      ensures r.Success? ==> r.value == outcome.response
      ensures r.Failure? ==> r.error == APIError(Url(apiUrl, endpoint))
    {
      var url := apiUrl + "/" + endpoint;
      log := log + [HttpRequest(verb, url, json, verifyTls)];
      r := Dispatch(url, outcome);
    }

    method GetServerInfo(outcome: Outcome) returns (r: Result<Server, Error>)
      modifies this
      ensures log == old(log) + [HttpRequest("GET", Url(apiUrl, "server"), None, verifyTls)]
      ensures r == Fetch(Url(apiUrl, "server"), outcome, ParseServer)
    {
      var response :- Request("GET", "server", None, outcome);
      r := Validate(response.body, ParseServer);
    }

    /** The network outcome comes first so that the three arguments keep their `None` defaults. */
    method CreateAccessKey(outcome: Outcome, name: Option<string> := None, password: Option<string> := None,
                           port: Option<int> := None)
      returns (r: Result<AccessKey, Error>)
      modifies this
      ensures CreateBody(name, password, port).Failure? ==> log == old(log)
      ensures CreateBody(name, password, port).Success? ==>
        log == old(log) + [HttpRequest("POST", Url(apiUrl, "access-keys"), CreateBody(name, password, port).value, verifyTls)]
      ensures r == CreateAccessKeyResult(Url(apiUrl, "access-keys"), name, password, port, outcome)
    {
      var args := NonNullArgs(name, password, port);
      var body: Option<Json>;
      if args != map[] {
        var request :- AsValidation(ParseAccessKeyCreateRequest(args));
        body := Some(JObject(AccessKeyCreateRequestFields(request)));
      } else {
        body := None;
      }
      var response :- Request("POST", "access-keys", body, outcome);
      if response.status == 201 {
        r := CreatedKey(response.body);
      } else {
        r := Failure(ValidationError);
      }
    }

    method GetAccessKeys(outcome: Outcome) returns (r: Result<AccessKeyList, Error>)
      modifies this
      ensures log == old(log) + [HttpRequest("GET", Url(apiUrl, "access-keys"), None, verifyTls)]
      ensures r == Fetch(Url(apiUrl, "access-keys"), outcome, ParseAccessKeyList)
    {
      var response :- Request("GET", "access-keys", None, outcome);
      r := Validate(response.body, ParseAccessKeyList);
    }

    /** The body of the answer is never read; nothing is returned. */
    method DeleteAccessKey(keyId: string, outcome: Outcome) returns (r: Result<(), Error>)
      modifies this
      ensures log == old(log) + [HttpRequest("DELETE", Url(apiUrl, "access-keys/" + keyId), None, verifyTls)]
      ensures r.Success? <==> Delivered(outcome)
      ensures r.Failure? ==> r.error == APIError(Url(apiUrl, "access-keys/" + keyId))
    {
      var _ :- Request("DELETE", "access-keys/" + keyId, None, outcome);
      r := Success(());
    }

    /** The port goes out as given, in range or not; only the answer is validated. */
    method UpdateServerPort(port: int, outcome: Outcome) returns (r: Result<ServerPort, Error>)
      modifies this
      ensures log == old(log) + [HttpRequest("PUT", Url(apiUrl, "server/port-for-new-access-keys"),
                                             Some(JObject(map["port" := JInt(port)])), verifyTls)]
      ensures r == Fetch(Url(apiUrl, "server/port-for-new-access-keys"), outcome, ParseServerPort)
    {
      var response :- Request("PUT", "server/port-for-new-access-keys", Some(JObject(map["port" := JInt(port)])), outcome);
      r := Validate(response.body, ParseServerPort);
    }

    method SetAccessKeyDataLimit(keyId: string, limit: int, outcome: Outcome) returns (r: Result<DataLimit, Error>)
      modifies this
      ensures log == old(log) + [HttpRequest("PUT", Url(apiUrl, "access-keys/" + keyId + "/data-limit"),
                                             Some(JObject(map["bytes" := JInt(limit)])), verifyTls)]
      ensures r == Fetch(Url(apiUrl, "access-keys/" + keyId + "/data-limit"), outcome, ParseDataLimit)
    {
      var response :- Request("PUT", "access-keys/" + keyId + "/data-limit", Some(JObject(map["bytes" := JInt(limit)])), outcome);
      r := Validate(response.body, ParseDataLimit);
    }

    method SetMetricsEnabled(enabled: bool, outcome: Outcome) returns (r: Result<MetricsEnabled, Error>)
      modifies this
      ensures log == old(log) + [HttpRequest("PUT", Url(apiUrl, "server/metrics/enabled"),
                                             Some(JObject(map["enabled" := JBool(enabled)])), verifyTls)]
      ensures r == Fetch(Url(apiUrl, "server/metrics/enabled"), outcome, ParseMetricsEnabled)
    {
      var response :- Request("PUT", "server/metrics/enabled", Some(JObject(map["enabled" := JBool(enabled)])), outcome);
      r := Validate(response.body, ParseMetricsEnabled);
    }

    method GetMetrics(outcome: Outcome) returns (r: Result<Metrics, Error>)
      modifies this
      ensures log == old(log) + [HttpRequest("GET", Url(apiUrl, "metrics/transfer"), None, verifyTls)]
      ensures r == Fetch(Url(apiUrl, "metrics/transfer"), outcome, ParseMetrics)
    {
      var response :- Request("GET", "metrics/transfer", None, outcome);
      r := Validate(response.body, ParseMetrics);
    }
  }
}
