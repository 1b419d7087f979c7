/**
 * The constrained task executor: one request in, one response out, with no
 * routing and no state. The only supported task is "echo".
 */
module Executor {
  import opened Wrappers
  import opened Json
  import opened Models

  /** The task type the executor handles. */
  const EchoTask: string := "echo"

  /** The error string of every request whose task type is not handled. */
  const UnsupportedTask: string := "unsupported_task"

  /** The task types the service reports as supported. */
  const SupportedTasks: seq<string> := [EchoTask]

  /**
   * The invariant every executor response keeps: a documented status, no
   * error exactly on success, and an empty result on error.
   */
  predicate WellFormed(response: InvocationResponse)
    ensures WellFormed(response) ==> (response.error.Some? <==> response.status == "error")
  {
    && DocumentedStatus(response.status)
    && (response.error.None? <==> response.status == "success")
    && (response.status == "error" ==> response.result == map[])
  }

  /**
   * Executes one request. An "echo" request succeeds with its payload as the
   * result; every other task type fails with "unsupported_task" and an empty
   * result. The session identifier is echoed either way.
   */
  function ExecuteTask(request: InvocationRequest): (response: InvocationResponse)
    ensures response.session_id == request.session_id
    ensures WellFormed(response)
    ensures response.status == "success" <==> request.task_type == EchoTask
    ensures request.task_type == EchoTask ==> response.result == request.payload && response.error == None
    ensures request.task_type != EchoTask ==>
      response.status == "error" && response.result == map[] && response.error == Some(UnsupportedTask)
  {
    var task_type := request.task_type;
    var session_id := request.session_id;
    var payload := request.payload;
    if task_type == EchoTask then
      InvocationResponse(session_id, "success", payload, None)
    else
      InvocationResponse(session_id, "error", map[], Some(UnsupportedTask))
  }

  /** The two outcomes, and no third: success carrying the payload, or the unsupported-task error. */
  lemma ExactlyTwoOutcomes(request: InvocationRequest)
    ensures var response := ExecuteTask(request);
      || response == InvocationResponse(request.session_id, "success", request.payload, None)
      || response == InvocationResponse(request.session_id, "error", map[], Some(UnsupportedTask))
    ensures ExecuteTask(request).status == "success" <==> ExecuteTask(request).status != "error"
  {
  }

  /** A request succeeds exactly when its task type is one the service reports as supported. */
  lemma SuccessIffSupported(request: InvocationRequest)
    ensures ExecuteTask(request).status == "success" <==> request.task_type in SupportedTasks
  {
  }

  /**
   * Determinism: requests that agree on task type and whose payloads are
   * Python-equal yield the same status and results that are Python-equal
   * whichever way round they are compared. That identical requests yield
   * identical responses holds of every Dafny function; it is stated here
   * only to match the executor's promise.
   */
  lemma Deterministic(q1: InvocationRequest, q2: InvocationRequest)
    requires q1.task_type == q2.task_type
    requires PyEqDict(q1.payload, q2.payload)
    ensures ExecuteTask(q1).status == ExecuteTask(q2).status
    ensures PyEqDict(ExecuteTask(q1).result, ExecuteTask(q2).result)
    ensures PyEqDict(ExecuteTask(q2).result, ExecuteTask(q1).result)
    ensures q1 == q2 ==> ExecuteTask(q1) == ExecuteTask(q2)
  {
    PyEqSymmetric(Obj(ExecuteTask(q1).result), Obj(ExecuteTask(q2).result));
  }

  /**
   * The echo check of the API test: for a raw request naming the "echo" task
   * with a dict payload, the serialised response reports success, carries the
   * caller's session identifier, and its result is the payload itself. The
   * test compares with Python's `==`, so the result is also Python-equal to
   * the payload however deeply the payload nests; only that comparison needs
   * an inductive proof.
   */
  lemma EchoRoundTrip(fields: map<string, Json>)
    requires NewRequest(fields).Ok?
    requires fields["task_type"] == Str(EchoTask)
    requires "payload" in fields
    ensures var out := ResponseFields(ExecuteTask(NewRequest(fields).value));
      && out["status"] == Str("success")
      && out["session_id"] == fields["session_id"]
      && out["error"] == Null
      && out["result"] == fields["payload"]
      && PyEq(out["result"], fields["payload"])
  {
    PyEqReflexive(fields["payload"]);
  }

  /**
   * The unsupported-task check of the API test: for a raw request naming any
   * other task, the serialised response reports the error status, the error
   * string "unsupported_task" and an empty result.
   */
  lemma UnsupportedRoundTrip(fields: map<string, Json>)
    requires NewRequest(fields).Ok?
    requires fields["task_type"] != Str(EchoTask)
    ensures var out := ResponseFields(ExecuteTask(NewRequest(fields).value));
      && out["status"] == Str("error")
      && out["session_id"] == fields["session_id"]
      && out["error"] == Str(UnsupportedTask)
      && out["result"] == Obj(map[])
  {
  }

  /** Every executor response, serialised and validated again, is the same response. */
  lemma ResponseSurvivesTransport(request: InvocationRequest)
    ensures NewResponse(ResponseFields(ExecuteTask(request))) == Ok(ExecuteTask(request))
    ensures WellFormed(NewResponse(ResponseFields(ExecuteTask(request))).value)
  {
  }

  /** The request of the API echo test, with a nested list in its payload, is echoed back. */
  lemma EchoTestExample()
    ensures var payload := map["message" := Str("Hello, Noema!"), "data" := Arr([Int(1), Int(2), Int(3)])];
      var fields := map["session_id" := Str("test-123"), "task_type" := Str("echo"), "payload" := Obj(payload)];
      && NewRequest(fields).Ok?
      && ExecuteTask(NewRequest(fields).value) == InvocationResponse("test-123", "success", payload, None)
  {
  }
}
