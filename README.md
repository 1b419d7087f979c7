# Invocation boundary executor, modelled in Dafny

This project models the core of a stateless task-invocation boundary: an
`InvocationRequest` record (session identifier, task type, payload), an
`InvocationResponse` record (session identifier, status, result, optional
error), and the executor `execute_task`, which answers an `"echo"` request
with its payload unchanged and every other task type with the error
`"unsupported_task"` and an empty result, echoing the session identifier
either way.

Modules:

- `Wrappers` (`wrappers.dfy`): `Option` for Python's `Optional[...]`, `Result` for validation.
- `Json` (`json.dfy`): the decoded JSON values that payloads and results hold,
  and Python's `==` on them (`PyEq`), under which `True == 1` and dicts and
  lists compare element by element.
- `Models` (`models.py`'s records, `models.dfy`): the two records as datatypes,
  their field kinds (required string, dict with empty default, optional string
  with `None` default), constructors from a raw field map that apply the
  defaults and report refused fields, and the field maps the records
  serialise to.
- `Executor` (`executor.dfy`): `ExecuteTask`, the response invariant
  `WellFormed`, and lemmas for the case split, payload identity, session
  correlation, success/error exclusivity, determinism, and the two checks of
  the API test script stated on raw field maps.

`app/models.py` declares no `request_id`, `trace_id`, timestamps, timing,
`ErrorDetail` or evidence list, and sets no extra-field policy, so none of
these are modelled; undeclared keys are ignored, not rejected.

## Model

| member | source | states |
|---|---|---|
| Executor.ExecuteTask | app/executor.py:11-43 | session id is echoed; status is "success" iff the task type is "echo"; on echo the result is the payload and there is no error; otherwise status "error", empty result, error "unsupported_task"; the response is WellFormed |
| Executor.ExactlyTwoOutcomes | app/executor.py:29-43 | every response is one of exactly two shapes (payload success or unsupported-task error), and status is "success" exactly when it is not "error" |
| Executor.SuccessIffSupported | app/main.py:56 | a request succeeds exactly when its task type is in the reported supported-task list `["echo"]` |
| Executor.WellFormed | app/models.py:31-37 | the response invariant: a documented status, no error exactly on success (so an error is present exactly when the status is "error"), and an empty result on error |
| Executor.Deterministic | tests/test_phase2a.py:197-213 | same task type and Python-equal payloads give the same status and results Python-equal in both directions; identical requests give identical responses, which holds of any Dafny function |
| Executor.EchoRoundTrip | test_api.py:25-40 | for any valid raw echo request with a payload, the serialised response has status "success", the caller's session id, a null error, and a result equal to the payload, hence Python-equal to it at any nesting depth |
| Executor.UnsupportedRoundTrip | test_api.py:42-56 | for any valid raw request with another task type, the serialised response has status "error", error "unsupported_task", the caller's session id and an empty result |
| Executor.ResponseSurvivesTransport | app/main.py:32-47 | every executor response survives serialisation and re-validation unchanged and stays WellFormed |
| Executor.EchoTestExample | test_api.py:27-31 | the test's request with a nested list in its payload is accepted and echoed back exactly |
| Json.PyEq | test_api.py:40 | Python's `==` on JSON values: only numeric values (bool or int) equal numeric values, null and strings equal only themselves, lists equal lists of the same length, dicts equal dicts with the same keys |
| Json.PyEqReflexive | test_api.py:40 | every JSON value, however nested, is Python-equal to itself, so an echoed payload passes the test's `==` |
| Json.PyEqSymmetric | test_api.py:40 | Python's `==` on JSON values is symmetric |
| Json.PyEqIsCoarserThanIdentity | test_api.py:40 | Python-equality is not identity: `True == 1` and `{"flag": False} == {"flag": 0}` |
| Models.RequiredStr | app/models.py:21-22 | a required string field is accepted iff present and a string; absent gives Missing, wrong kind gives StringType |
| Models.DefaultDict | app/models.py:23 | a dict field is accepted iff absent or a dict; absent gives the empty dict |
| Models.OptionalStr | app/models.py:39 | an optional string field is accepted iff absent, null or a string; absent or null gives None |
| Models.RequestErrors | app/models.py:21-23 | the errors of a raw request: Missing/StringType for session_id and task_type and DictType for payload exactly when that field is refused, no other error, each field at most once, in declaration order |
| Models.NewRequest | app/models.py:12-23 | a raw field map is accepted iff session_id and task_type are strings and payload is absent or a dict; the fields are taken over, payload defaulting to {}; on refusal exactly the refused fields are reported, each once, in declaration order, and an absent payload never is |
| Models.RequestFields | app/models.py:12-23 | a request serialises to exactly its three declared fields, each holding the request's value |
| Models.RequestRoundTrip | app/models.py:12-23 | every request survives serialisation and validation unchanged |
| Models.RequestPayloadDefault | app/models.py:23 | a request without payload gets the empty dict |
| Models.ResponseErrors | app/models.py:36-39 | the errors of a raw response: Missing/StringType for session_id and status, DictType for result, StringType for error exactly when that field is refused, no other error, each field at most once, in declaration order |
| Models.NewResponse | app/models.py:26-39 | a raw field map is accepted iff session_id and status are strings, result absent or a dict, error absent, null or a string; result defaults to {}, error to None; on refusal exactly the refused fields are reported, each once, in declaration order |
| Models.ResponseFields | app/models.py:26-39 | a response serialises to exactly its four declared fields, a missing error as null |
| Models.ResponseRoundTrip | app/models.py:26-39 | every response survives serialisation and validation unchanged |
| Models.ResponseDefaults | app/models.py:36-39 | a response given only session_id and status has an empty result and no error |
| Models.StatusIsPlainString | app/models.py:37 | the record accepts an undocumented status such as "pending", so the documented values are an invariant of the executor (Executor.WellFormed), not of the type |

## Left out

- The HTTP layer: FastAPI routing, async handling, HTTP status codes, and the constant `/` and `/health` endpoints. Two facts of `app/main.py` are used: the supported-task list `["echo"]` (Executor.SuccessIffSupported) and the `/invoke` handler's serialisation and re-validation of the response against its response model (Executor.ResponseSurvivesTransport).
- Key order: Python dicts keep insertion order and the echoed result goes over the wire in the payload's order; `map<string, Json>` has no order, so the model does not state that the echoed result keeps the payload's key order.
- Logging (`app/logging_utils.py`): JSON serialisation to a logger and wall-clock timestamps are output with no effect on control flow, and the executor never calls it.
- Pydantic's own validation behaviour: type coercion (such as accepting other kinds of value for a `str` field in lax mode) and the wording of its error messages are library behaviour; the model accepts exactly the declared JSON kinds and reports one FieldError per refused field.
- Undeclared keys: the records declare no extra-field policy, so the model ignores keys outside the declared fields and does not claim they are rejected.
- Floating-point JSON numbers: numbers are modelled as integers only; floats and their comparison with integers are not modelled.
- Timing, trace identifiers, structured error details, privacy levels and evidence attachments: the later API version exercised by tests/ and test_compliance.py has them; app/models.py and app/executor.py do not.
- Json.PyEq: Python's `==` is modelled for the JSON kinds above only; comparison of floats, NaN and other Python objects is not modelled.
