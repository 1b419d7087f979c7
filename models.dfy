/**
 * The request and response records of the invocation boundary, with the
 * declared required fields and defaults, a constructor from a raw field map
 * (a decoded JSON object) and the field map a response serialises to.
 */
module Models {
  import opened Wrappers
  import opened Json

  /** An incoming task request: who asked, which task, and its data. */
  datatype InvocationRequest = InvocationRequest(
    session_id: string,
    task_type: string,
    payload: map<string, Json>)

  /** The structured answer to one request. */
  datatype InvocationResponse = InvocationResponse(
    session_id: string,
    status: string,
    result: map<string, Json>,
    error: Option<string>)

  /** Why one declared field of a raw field map was refused. */
  datatype FieldError =
    | Missing(field: string)     // a required field is absent
    | StringType(field: string)  // a `str` field holds something else
    | DictType(field: string)    // a `dict` field holds something else

  /** The declared fields of each record, in declaration order. */
  const RequestFieldNames: seq<string> := ["session_id", "task_type", "payload"]
  const ResponseFieldNames: seq<string> := ["session_id", "status", "result", "error"]

  /** The status values the response record documents. */
  predicate DocumentedStatus(status: string) {
    status == "success" || status == "error"
  }

  // ---------------------------------------------------------------------------
  // Field kinds

  /** A required `str` field: no default. */
  function RequiredStr(fields: map<string, Json>, name: string): (r: Result<string, FieldError>)
    ensures r.Ok? <==> name in fields && fields[name].Str?
    ensures r.Ok? ==> r.value == fields[name].s
    ensures r.Err? ==> r.error == (if name in fields then StringType(name) else Missing(name))
  {
    if name !in fields then Err(Missing(name))
    else match fields[name]
      case Str(s) => Ok(s)
      case _ => Err(StringType(name))
  }

  /** A `dict` field whose default, when absent, is the empty dict. */
  function DefaultDict(fields: map<string, Json>, name: string): (r: Result<map<string, Json>, FieldError>)
    ensures r.Ok? <==> name !in fields || fields[name].Obj?
    ensures r.Ok? ==> r.value == (if name in fields then fields[name].fields else map[])
    ensures r.Err? ==> r.error == DictType(name)
  {
    if name !in fields then Ok(map[])
    else match fields[name]
      case Obj(m) => Ok(m)
      case _ => Err(DictType(name))
  }

  /** An `Optional[str]` field whose default, when absent, is `None`; an explicit null is `None` too. */
  function OptionalStr(fields: map<string, Json>, name: string): (r: Result<Option<string>, FieldError>)
    ensures r.Ok? <==> name !in fields || fields[name].Null? || fields[name].Str?
    ensures r.Ok? ==> r.value == (if name in fields && fields[name].Str? then Some(fields[name].s) else None)
    ensures r.Err? ==> r.error == StringType(name)
  {
    if name !in fields then Ok(None)
    else match fields[name]
      case Null => Ok(None)
      case Str(s) => Ok(Some(s))
      case _ => Err(StringType(name))
  }

  /** The error of one field check, if any, as a list of zero or one entries. */
  function ErrorsOf<T>(r: Result<T, FieldError>): (es: seq<FieldError>)
    ensures r.Ok? <==> es == []
    ensures r.Err? ==> es == [r.error]
  {
    if r.Ok? then [] else [r.error]
  }

  /** The errors a required `str` field contributes: at most one, about that field. */
  function StrFieldErrors(fields: map<string, Json>, name: string): (es: seq<FieldError>)
    ensures |es| <= 1
    ensures es == [] <==> name in fields && fields[name].Str?
    ensures Missing(name) in es <==> name !in fields
    ensures StringType(name) in es <==> name in fields && !fields[name].Str?
    ensures forall e :: e in es ==> e == Missing(name) || e == StringType(name)
  {
    ErrorsOf(RequiredStr(fields, name))
  }

  /** The errors a defaulted `dict` field contributes: at most one, about that field. */
  function DictFieldErrors(fields: map<string, Json>, name: string): (es: seq<FieldError>)
    ensures |es| <= 1
    ensures es == [] <==> name !in fields || fields[name].Obj?
    ensures DictType(name) in es <==> name in fields && !fields[name].Obj?
    ensures forall e :: e in es ==> e == DictType(name)
  {
    ErrorsOf(DefaultDict(fields, name))
  }

  /** The errors an `Optional[str]` field contributes: at most one, about that field. */
  function OptionalStrFieldErrors(fields: map<string, Json>, name: string): (es: seq<FieldError>)
    ensures |es| <= 1
    ensures es == [] <==> name !in fields || fields[name].Null? || fields[name].Str?
    ensures StringType(name) in es <==> name in fields && !fields[name].Null? && !fields[name].Str?
    ensures forall e :: e in es ==> e == StringType(name)
  {
    ErrorsOf(OptionalStr(fields, name))
  }

  /** The position of a declared field name in its declaration order. */
  function IndexOf(names: seq<string>, name: string): (i: nat)
    requires name in names
    ensures i < |names| && names[i] == name
  {
    if names[0] == name then 0 else 1 + IndexOf(names[1..], name)
  }

  /**
   * A list of field errors that names only declared fields, follows their
   * declaration order, and so reports each field at most once.
   */
  predicate InFieldOrder(errors: seq<FieldError>, names: seq<string>) {
    && (forall e :: e in errors ==> e.field in names)
    && forall i, j :: 0 <= i < j < |errors| && errors[i].field in names && errors[j].field in names ==>
         IndexOf(names, errors[i].field) < IndexOf(names, errors[j].field)
  }

  /** True when no declared field name occurs twice. */
  predicate Distinct(names: seq<string>) {
    forall i, j :: 0 <= i < j < |names| ==> names[i] != names[j]
  }

  /** Among distinct names, the k-th name sits at position k. */
  lemma {:induction false} IndexOfDistinct(names: seq<string>, k: nat)
    requires Distinct(names) && k < |names|
    ensures IndexOf(names, names[k]) == k
  {
    if k > 0 {
      assert names[1..][k - 1] == names[k];
      IndexOfDistinct(names[1..], k - 1);
    }
  }

  /**
   * Appending the at most one error about the k-th declared field to an
   * ordered list about earlier fields keeps the list ordered.
   */
  lemma AppendFieldErrors(xs: seq<FieldError>, ys: seq<FieldError>, names: seq<string>, k: nat)
    requires Distinct(names) && k < |names|
    requires InFieldOrder(xs, names)
    requires |xs| <= k && forall e :: e in xs ==> e.field in names[..k]
    requires |ys| <= 1 && forall e :: e in ys ==> e.field == names[k]
    ensures |xs + ys| <= k + 1
    ensures InFieldOrder(xs + ys, names)
    ensures forall e :: e in xs + ys ==> e.field in names[..k + 1]
  {
    IndexOfDistinct(names, k);
    forall x, y | x in xs && y in ys
      ensures IndexOf(names, x.field) < IndexOf(names, y.field)
    {
      var i :| 0 <= i < k && names[..k][i] == x.field;
      assert names[i] == x.field;
      IndexOfDistinct(names, i);
    }
    var zs := xs + ys;
    forall i, j | 0 <= i < j < |zs| && zs[i].field in names && zs[j].field in names
      ensures IndexOf(names, zs[i].field) < IndexOf(names, zs[j].field)
    {
      if j < |xs| {
        assert zs[i] == xs[i] && zs[j] == xs[j];
      } else {
        assert j == |xs| && zs[j] in ys && zs[i] == xs[i];
      }
    }
    forall e | e in zs ensures e.field in names[..k + 1] {
      if e in xs {
        var i :| 0 <= i < k && names[..k][i] == e.field;
        assert names[..k + 1][i] == e.field;
      } else {
        assert names[..k + 1][k] == e.field;
      }
    }
  }

  // ---------------------------------------------------------------------------
  // InvocationRequest

  /** Per-field error lists of the request fields, joined in declaration order, are in field order. */
  lemma RequestErrorsInOrder(e1: seq<FieldError>, e2: seq<FieldError>, e3: seq<FieldError>)
    requires |e1| <= 1 && forall e :: e in e1 ==> e.field == "session_id"
    requires |e2| <= 1 && forall e :: e in e2 ==> e.field == "task_type"
    requires |e3| <= 1 && forall e :: e in e3 ==> e.field == "payload"
    ensures InFieldOrder(e1 + e2 + e3, RequestFieldNames)
  {
    AppendFieldErrors([], e1, RequestFieldNames, 0);
    AppendFieldErrors(e1, e2, RequestFieldNames, 1);
    AppendFieldErrors(e1 + e2, e3, RequestFieldNames, 2);
  }

  /**
   * The errors of a raw request field map: one per refused field, only for
   * refused fields, in declaration order.
   */
  function RequestErrors(fields: map<string, Json>): (es: seq<FieldError>)
    ensures es == [] <==>
      && "session_id" in fields && fields["session_id"].Str?
      && "task_type" in fields && fields["task_type"].Str?
      && ("payload" !in fields || fields["payload"].Obj?)
    ensures |es| <= |RequestFieldNames|
    ensures Missing("session_id") in es <==> "session_id" !in fields
    ensures Missing("task_type") in es <==> "task_type" !in fields
    ensures StringType("session_id") in es <==> "session_id" in fields && !fields["session_id"].Str?
    ensures StringType("task_type") in es <==> "task_type" in fields && !fields["task_type"].Str?
    ensures DictType("payload") in es <==> "payload" in fields && !fields["payload"].Obj?
    ensures forall e :: e in es ==>
      e in [Missing("session_id"), StringType("session_id"), Missing("task_type"), StringType("task_type"), DictType("payload")]
    ensures InFieldOrder(es, RequestFieldNames)
  {
    var e1 := StrFieldErrors(fields, "session_id");
    var e2 := StrFieldErrors(fields, "task_type");
    var e3 := DictFieldErrors(fields, "payload");
    RequestErrorsInOrder(e1, e2, e3);
    e1 + e2 + e3
  }

  /**
   * Builds a request from a raw field map. `session_id` and `task_type` are
   * required strings; `payload` is a dict that defaults to empty. Keys outside
   * the declared fields are ignored. On failure every refused field is
   * reported, once, in declaration order, and no accepted field is.
   */
  function NewRequest(fields: map<string, Json>): (r: Result<InvocationRequest, seq<FieldError>>)
    ensures r.Ok? <==>
      && "session_id" in fields && fields["session_id"].Str?
      && "task_type" in fields && fields["task_type"].Str?
      && ("payload" !in fields || fields["payload"].Obj?)
    ensures r.Ok? ==>
      && r.value.session_id == fields["session_id"].s
      && r.value.task_type == fields["task_type"].s
      && r.value.payload == (if "payload" in fields then fields["payload"].fields else map[])
    ensures r.Err? ==>
      && 1 <= |r.error| <= |RequestFieldNames|
      && (Missing("session_id") in r.error <==> "session_id" !in fields)
      && (Missing("task_type") in r.error <==> "task_type" !in fields)
      && (StringType("session_id") in r.error <==> "session_id" in fields && !fields["session_id"].Str?)
      && (StringType("task_type") in r.error <==> "task_type" in fields && !fields["task_type"].Str?)
      && (DictType("payload") in r.error <==> "payload" in fields && !fields["payload"].Obj?)
      && (forall e :: e in r.error ==>
            e in [Missing("session_id"), StringType("session_id"), Missing("task_type"), StringType("task_type"), DictType("payload")])
      && InFieldOrder(r.error, RequestFieldNames)
  {
    var session_id := RequiredStr(fields, "session_id");
    var task_type := RequiredStr(fields, "task_type");
    var payload := DefaultDict(fields, "payload");
    if session_id.Ok? && task_type.Ok? && payload.Ok? then
      Ok(InvocationRequest(session_id.value, task_type.value, payload.value))
    else
      Err(RequestErrors(fields))
  }

  /** The field map of a request, every declared field present. */
  function RequestFields(q: InvocationRequest): (fields: map<string, Json>)
    ensures fields.Keys == set f | f in RequestFieldNames
    ensures fields["session_id"] == Str(q.session_id) && fields["task_type"] == Str(q.task_type)
    ensures fields["payload"] == Obj(q.payload)
  {
    map["session_id" := Str(q.session_id), "task_type" := Str(q.task_type), "payload" := Obj(q.payload)]
  }

  /** Every request survives serialisation and validation unchanged. */
  lemma RequestRoundTrip(q: InvocationRequest)
    ensures NewRequest(RequestFields(q)) == Ok(q)
  {
  }

  /** A request that gives no payload gets the empty dict. */
  lemma RequestPayloadDefault(session_id: string, task_type: string)
    ensures NewRequest(map["session_id" := Str(session_id), "task_type" := Str(task_type)])
         == Ok(InvocationRequest(session_id, task_type, map[]))
  {
  }

  // ---------------------------------------------------------------------------
  // InvocationResponse

  /** Per-field error lists of the response fields, joined in declaration order, are in field order. */
  lemma ResponseErrorsInOrder(e1: seq<FieldError>, e2: seq<FieldError>, e3: seq<FieldError>, e4: seq<FieldError>)
    requires |e1| <= 1 && forall e :: e in e1 ==> e.field == "session_id"
    requires |e2| <= 1 && forall e :: e in e2 ==> e.field == "status"
    requires |e3| <= 1 && forall e :: e in e3 ==> e.field == "result"
    requires |e4| <= 1 && forall e :: e in e4 ==> e.field == "error"
    ensures InFieldOrder(e1 + e2 + e3 + e4, ResponseFieldNames)
  {
    AppendFieldErrors([], e1, ResponseFieldNames, 0);
    AppendFieldErrors(e1, e2, ResponseFieldNames, 1);
    AppendFieldErrors(e1 + e2, e3, ResponseFieldNames, 2);
    AppendFieldErrors(e1 + e2 + e3, e4, ResponseFieldNames, 3);
  }

  /**
   * The errors of a raw response field map: one per refused field, only for
   * refused fields, in declaration order.
   */
  function ResponseErrors(fields: map<string, Json>): (es: seq<FieldError>)
    ensures es == [] <==>
      && "session_id" in fields && fields["session_id"].Str?
      && "status" in fields && fields["status"].Str?
      && ("result" !in fields || fields["result"].Obj?)
      && ("error" !in fields || fields["error"].Null? || fields["error"].Str?)
    ensures |es| <= |ResponseFieldNames|
    ensures Missing("session_id") in es <==> "session_id" !in fields
    ensures Missing("status") in es <==> "status" !in fields
    ensures StringType("session_id") in es <==> "session_id" in fields && !fields["session_id"].Str?
    ensures StringType("status") in es <==> "status" in fields && !fields["status"].Str?
    ensures DictType("result") in es <==> "result" in fields && !fields["result"].Obj?
    ensures StringType("error") in es <==> "error" in fields && !fields["error"].Null? && !fields["error"].Str?
    ensures forall e :: e in es ==>
      e in [Missing("session_id"), StringType("session_id"), Missing("status"), StringType("status"),
            DictType("result"), StringType("error")]
    ensures InFieldOrder(es, ResponseFieldNames)
  {
    var e1 := StrFieldErrors(fields, "session_id");
    var e2 := StrFieldErrors(fields, "status");
    var e3 := DictFieldErrors(fields, "result");
    var e4 := OptionalStrFieldErrors(fields, "error");
    ResponseErrorsInOrder(e1, e2, e3, e4);
    e1 + e2 + e3 + e4
  }

  /**
   * Builds a response from a raw field map. `session_id` and `status` are
   * required strings; `result` is a dict defaulting to empty; `error` is an
   * optional string defaulting to `None`. Keys outside the declared fields are
   * ignored. `status` is a plain string: its documented values are not checked.
   * On failure every refused field is reported, once, in declaration order.
   */
  function NewResponse(fields: map<string, Json>): (r: Result<InvocationResponse, seq<FieldError>>)
    ensures r.Ok? <==>
      && "session_id" in fields && fields["session_id"].Str?
      && "status" in fields && fields["status"].Str?
      && ("result" !in fields || fields["result"].Obj?)
      && ("error" !in fields || fields["error"].Null? || fields["error"].Str?)
    ensures r.Ok? ==>
      && r.value.session_id == fields["session_id"].s
      && r.value.status == fields["status"].s
      && r.value.result == (if "result" in fields then fields["result"].fields else map[])
      && r.value.error == (if "error" in fields && fields["error"].Str? then Some(fields["error"].s) else None)
    ensures r.Err? ==>
      && 1 <= |r.error| <= |ResponseFieldNames|
      && (Missing("session_id") in r.error <==> "session_id" !in fields)
      && (Missing("status") in r.error <==> "status" !in fields)
      && (StringType("session_id") in r.error <==> "session_id" in fields && !fields["session_id"].Str?)
      && (StringType("status") in r.error <==> "status" in fields && !fields["status"].Str?)
      && (DictType("result") in r.error <==> "result" in fields && !fields["result"].Obj?)
      && (StringType("error") in r.error <==>
            "error" in fields && !fields["error"].Null? && !fields["error"].Str?)
      && (forall e :: e in r.error ==>
            e in [Missing("session_id"), StringType("session_id"), Missing("status"), StringType("status"),
                  DictType("result"), StringType("error")])
      && InFieldOrder(r.error, ResponseFieldNames)
  {
    var session_id := RequiredStr(fields, "session_id");
    var status := RequiredStr(fields, "status");
    var result := DefaultDict(fields, "result");
    var error := OptionalStr(fields, "error");
    if session_id.Ok? && status.Ok? && result.Ok? && error.Ok? then
      Ok(InvocationResponse(session_id.value, status.value, result.value, error.value))
    else
      Err(ResponseErrors(fields))
  }

  /** The field map a response serialises to, `error` as null when absent. */
  function ResponseFields(r: InvocationResponse): (fields: map<string, Json>)
    ensures fields.Keys == set f | f in ResponseFieldNames
    ensures fields["session_id"] == Str(r.session_id) && fields["status"] == Str(r.status)
    ensures fields["result"] == Obj(r.result)
    ensures fields["error"] == (if r.error.Some? then Str(r.error.value) else Null)
  {
    map[
      "session_id" := Str(r.session_id),
      "status" := Str(r.status),
      "result" := Obj(r.result),
      "error" := match r.error case Some(e) => Str(e) case None => Null
    ]
  }

  /** Every response survives serialisation and validation unchanged. */
  lemma ResponseRoundTrip(r: InvocationResponse)
    ensures NewResponse(ResponseFields(r)) == Ok(r)
  {
  }

  /** A response given only its required fields has an empty result and no error. */
  lemma ResponseDefaults(session_id: string, status: string)
    ensures NewResponse(map["session_id" := Str(session_id), "status" := Str(status)])
         == Ok(InvocationResponse(session_id, status, map[], None))
  {
  }

  /** The record type does not confine `status` to its documented values. */
  lemma StatusIsPlainString()
    ensures NewResponse(map["session_id" := Str("s"), "status" := Str("pending")]).Ok?
    ensures !DocumentedStatus("pending")
  {
  }
}
