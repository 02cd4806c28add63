# pyoutlineapi in Dafny

A model of the core of `pyoutlineapi`, a Python client for the management API of an
Outline VPN server. It covers two parts:

- **the schemas** (`pyoutlineapi/models.py`), in `models.dfy`. These are the pydantic v2 models
  `Server`, `DataLimit`, `AccessKey`, `ServerPort`, `AccessKeyCreateRequest`, `AccessKeyList`,
  `MetricsEnabled` and `Metrics`. Each one has a record datatype and a `Valid<Model>` predicate
  for its field constraints. It also has `<Model>Fields`, the JSON object the record dumps to,
  and `Parse<Model>`, which plays `Model(**fields)`. The parser accepts the keyword arguments
  or rejects them with a `Violation`. Unknown keys are ignored. Every declared key is required,
  including the `Optional[...]` ones, which may hold null. Each parser is proved sound in its
  `ensures`: an accepted payload gives a valid record whose fields the payload carries
  unchanged. Where the parser does not state completeness itself, a `Parse<Model>Complete`
  lemma does: every valid record whose fields a payload carries is accepted as exactly that
  record. Together these give an if-and-only-if.
- **the client** (`pyoutlineapi/client.py`), in `client.dfy`. `PyOutlineWrapper` is a class.
  Its fields `apiUrl`, `certSha256` and `verifyTls` are fixed at construction. Its ghost `log`
  records every request handed to the HTTP session as (verb, url, JSON body, verify flag).
  The network is a parameter: each operation receives the `Outcome` of its request, which is
  either `TransportFail` (a `requests.RequestException`) or `Received(Response(status, body))`.
  The body is already decoded JSON (`json.dfy`). Each method appends its fixed request to the
  log. Its result is given by a pure function of the outcome: `Fetch` for the six operations
  that parse a response, and `CreateAccessKeyResult` for `create_access_key`.

The error taxonomy is `Client.Error`:

- `APIError(url)`: raised by `_request` on a transport failure or a 4xx/5xx status, and names
  the URL;
- `ValidationError`: a schema failure, and also a non-201 status in `create_access_key`;
- `TypeError`: Python's own error. Unpacking (`**`) or indexing a response body that is not a
  JSON object raises it, and no handler in the client catches it.

Behaviour of the client worth knowing:

- `create_access_key` sends a body only when all three arguments are given. Under pydantic v2
  the three `Optional` fields of `AccessKeyCreateRequest` have no default, so they are
  required. A call with only some arguments fails validation and sends nothing.
- Only `create_access_key` checks a status (201). The other operations accept any status
  below 400, or 600 and above.
- The client has no 409 handling, no boolean results, no request timeout and no text output
  mode.

## Model

| member | source | states |
|---|---|---|
| `Models.ParseServer` | pyoutlineapi/models.py:17-23 | an accepted payload gives a Server with timestamp ≥ 0 and port in [1,65535] whose five fields equal the payload's values; unknown keys are ignored |
| `Models.ParseServerComplete` | pyoutlineapi/models.py:17-23 | every valid Server whose five fields a payload carries is accepted as exactly that Server |
| `Models.ServerMissingKeyRejected` | pyoutlineapi/models.py:19-23 | a payload missing any of the five keys is rejected, e.g. one holding only unknown keys |
| `Models.ParseDataLimit` | pyoutlineapi/models.py:26-28 | an accepted payload gives `bytes` ≥ 0 (no upper bound) equal to the payload's value |
| `Models.ParseDataLimitComplete` | pyoutlineapi/models.py:26-28 | every non-negative byte count carried in `bytes` is accepted unchanged |
| `Models.ParseAccessKey` | pyoutlineapi/models.py:31-38 | an accepted payload gives a key with non-empty password and accessUrl and port in [1,65535]; all six fields are carried over unchanged, and id, name and method may be any string |
| `Models.ParseAccessKeyComplete` | pyoutlineapi/models.py:31-38 | every valid AccessKey whose six fields a payload carries is accepted as exactly that key |
| `Models.ParseServerPort` | pyoutlineapi/models.py:41-43 | an accepted payload gives a port in [1,65535] equal to the payload's |
| `Models.ParseServerPortComplete` | pyoutlineapi/models.py:41-43 | every port in [1,65535] is accepted unchanged |
| `Models.ParseAccessKeyCreateRequest` | pyoutlineapi/models.py:46-50 | an accepted payload has all three keys; each value is null or of its type, and a port is in [0,65535] |
| `Models.ParseAccessKeyCreateRequestComplete` | pyoutlineapi/models.py:46-50 | every valid request (null fields allowed, port 0 allowed) whose three keys a payload carries is accepted unchanged |
| `Models.CreateRequestMissingKeyRejected` | pyoutlineapi/models.py:48-50 | a create request missing any of its three keys is rejected, even though the values may be null |
| `Models.PortZeroOnlyInCreateRequest` | pyoutlineapi/models.py:23-50 | port 0 passes in AccessKeyCreateRequest and fails in ServerPort, AccessKey and Server |
| `Models.ParseAccessKeyItem` | pyoutlineapi/models.py:55 | one list element is accepted iff it is an object that validates as an AccessKey, with the same result |
| `Models.ParseAccessKeyItems` | pyoutlineapi/models.py:55 | `List[AccessKey]`: success keeps length and order, and element i is the parse of input i; failure means some element fails |
| `Models.ParseAccessKeyItemsComplete` | pyoutlineapi/models.py:55 | if every element parses, the list parses to exactly those keys in that order |
| `Models.ParseAccessKeyList` | pyoutlineapi/models.py:53-55 | accepted iff `accessKeys` is an array whose every element is a valid AccessKey; the result keeps the input's length and order |
| `Models.ParseMetricsEnabled` | pyoutlineapi/models.py:58-60 | accepted iff `enabled` holds a boolean, and the result carries it |
| `Models.ParseMetrics` | pyoutlineapi/models.py:63-73 | an accepted payload gives a mapping with no empty user id and no negative value that equals the payload's mapping |
| `Models.ParseMetricsComplete` | pyoutlineapi/models.py:63-73 | every mapping with non-empty keys and non-negative values is accepted with exactly the same keys and values |
| `Models.NegativeBytesRejected` | pyoutlineapi/models.py:69-73 | one negative byte count rejects the whole payload |
| `Models.ValidateBytesTransferred` | pyoutlineapi/models.py:68-73 | the validator loop succeeds iff every value is ≥ 0, returns its input unchanged, and otherwise raises ValueError |
| `Client.Dispatch` | pyoutlineapi/client.py:73-81 | `_request` returns the response unchanged iff no transport failure and status not in [400,600); otherwise APIError naming the URL |
| `Client.Validate` | pyoutlineapi/client.py:92-94 | `Model(**body)`: success iff the body is an object the schema accepts; a non-object gives TypeError, a schema failure gives ValidationError, and never APIError |
| `Client.Fetch` | pyoutlineapi/client.py:90-94 | a parsing operation succeeds iff delivered with an object body that validates; APIError (with the URL) iff not delivered; TypeError iff the body is not an object; ValidationError otherwise |
| `Client.CreateBody` | pyoutlineapi/client.py:112-123 | no body iff every argument is None; a body iff all three are given with port in [0,65535], and then it is exactly `{"name","password","port"}`; otherwise ValidationError before any request |
| `Client.CreatedKey` | pyoutlineapi/client.py:127-141 | the key built from a 201 body is valid and equals the body's fields; a missing key or a constraint failure gives ValidationError; a non-object body gives TypeError |
| `Client.CreatedKeyIsAccessKeyModel` | pyoutlineapi/client.py:128-136 | with `SecretStr` taken as a plain string, building the key field by field with KeyError caught accepts and rejects exactly what `AccessKey(**data)` does |
| `Client.CreateAccessKeyResult` | pyoutlineapi/client.py:119-141 | an invalid argument set gives ValidationError; an undelivered request gives APIError; a status other than 201 gives ValidationError; on 201 the result is exactly `CreatedKey` of the body (the key, ValidationError or TypeError); success only on 201 with a valid key carried unchanged |
| `Client.CreateAccessKeyReturnsKey` | pyoutlineapi/client.py:112-136 | for every argument set that passes validation, no arguments included, a 201 answer carrying a valid key yields exactly that key |
| `Client.CreateAccessKeyRejectsMissingAccessUrl` | pyoutlineapi/client.py:127-141 | a 201 answer whose body lacks `accessUrl` gives ValidationError, whatever the valid arguments |
| `Client.PyOutlineWrapper.constructor` | pyoutlineapi/client.py:44-56 | stores apiUrl, certSha256 and verifyTls (default true); no request has been sent |
| `Client.PyOutlineWrapper.Request` | pyoutlineapi/client.py:58-81 | logs exactly one request to `apiUrl + "/" + endpoint` with the given verb and body and `verify=verifyTls`; the result is as in `Dispatch` |
| `Client.PyOutlineWrapper.GetServerInfo` | pyoutlineapi/client.py:83-94 | logs `GET server` with no body; the result is `Fetch` with the Server schema |
| `Client.PyOutlineWrapper.CreateAccessKey` | pyoutlineapi/client.py:96-141 | the three arguments default to None; logs nothing when argument validation fails, and otherwise one `POST access-keys` with the `CreateBody` body; the result is `CreateAccessKeyResult` |
| `Client.PyOutlineWrapper.GetAccessKeys` | pyoutlineapi/client.py:143-154 | logs `GET access-keys` with no body; the result is `Fetch` with the AccessKeyList schema |
| `Client.PyOutlineWrapper.DeleteAccessKey` | pyoutlineapi/client.py:156-169 | logs `DELETE access-keys/{id}`; it succeeds with no value iff delivered, without reading the body, and otherwise gives APIError with the URL |
| `Client.PyOutlineWrapper.UpdateServerPort` | pyoutlineapi/client.py:171-185 | logs `PUT server/port-for-new-access-keys` with `{"port": p}` for any p, unvalidated; the result is `Fetch` with the ServerPort schema |
| `Client.PyOutlineWrapper.SetAccessKeyDataLimit` | pyoutlineapi/client.py:187-202 | logs `PUT access-keys/{id}/data-limit` with `{"bytes": n}` for any n; the result is `Fetch` with the DataLimit schema |
| `Client.PyOutlineWrapper.SetMetricsEnabled` | pyoutlineapi/client.py:204-218 | logs `PUT server/metrics/enabled` with `{"enabled": b}`; the result is `Fetch` with the MetricsEnabled schema |
| `Client.PyOutlineWrapper.GetMetrics` | pyoutlineapi/client.py:220-231 | logs `GET metrics/transfer` with no body; the result is `Fetch` with the Metrics schema |

## Left out

- Certificate pinning (`FingerprintAdapter`) and the `requests.Session`: these are foreign library code and network I/O. `certSha256` and `verifyTls` are kept as fields. `verifyTls` is passed through unchanged into every logged request.
- Logging: it only has side effects, and the logger module is not part of this model.
- Decoding the response bytes in `response.json()`, and the `JSONDecodeError` it can raise: the body is taken as an already-decoded JSON value. Fractional JSON numbers are not modelled, because no schema field holds one.
- Pydantic's lax-mode coercions (such as `"123"` for an int, or a bool taken as an int) are not modelled. Types are matched strictly.
- `SecretStr` masking: secrets are plain strings.
- Client.CreatedKeyIsAccessKeyModel: a non-string `password` or `accessUrl` in a 201 body is not modelled as the source treats it. `create_access_key` wraps both values as `SecretStr(data[...])` before validation, and pydantic may then accept the wrapper without checking the inner type. The model hands the raw JSON value to the `AccessKey` validation, which rejects it with ValidationError.
- Error detail: pydantic reports every violation, and the model reports only the first. The text of exception messages is not modelled; only the error kind and, for `APIError`, the URL are.
- The exceptions module is not part of this model. `APIError` is taken not to be a `requests.RequestException`, so the handler in `create_access_key` does not turn it into a `ValidationError`.
- `PyOutlineWrapper.CreateAccessKey` takes the network outcome as its first parameter, so that its three arguments can keep their `None` defaults.
- `RequestError` is not raised anywhere in the client, so it has no constructor in `Client.Error`.
