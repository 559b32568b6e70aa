/** The server actions the registration form calls (app/actions.ts): each
    wraps one backend request and turns whatever happens into a tagged
    result instead of throwing. */
module Actions {
  import opened Js
  import opened Transport

  /** The address used when `API_BASE_URL` is unset or empty. */
  const DefaultApiBaseUrl: string := "http://hyperverge-monitoring-alb-444601760.ap-south-1.elb.amazonaws.com"
  const RegisterFallback: string := "Failed to connect to backend"
  const StateFallback: string := "Failed to fetch state"

  /** The configured base address when it is set and not empty, else the
      built-in default. */
  function ApiBaseUrl(env: Option<string>): (r: string)
    ensures Truthy(env) ==> r == env.value
    ensures !Truthy(env) ==> r == DefaultApiBaseUrl
    ensures r != ""
  {
    FirstTruthy([env], DefaultApiBaseUrl)
  }

  /** The registration endpoint: the base followed by `/monitor`. */
  function MonitorApiUrl(env: Option<string>): (r: string)
    ensures |r| > |ApiBaseUrl(env)|
    ensures r[..|ApiBaseUrl(env)|] == ApiBaseUrl(env) && r[|ApiBaseUrl(env)|..] == "/monitor"
  {
    ApiBaseUrl(env) + "/monitor"
  }

  /** The state endpoint: the base followed by `/state`. */
  function StateApiUrl(env: Option<string>): (r: string)
    ensures |r| > |ApiBaseUrl(env)|
    ensures r[..|ApiBaseUrl(env)|] == ApiBaseUrl(env) && r[|ApiBaseUrl(env)|..] == "/state"
  {
    ApiBaseUrl(env) + "/state"
  }

  /** The two endpoints are different addresses under one base. */
  lemma EndpointsDiffer(env: Option<string>)
    ensures MonitorApiUrl(env) != StateApiUrl(env)
  {
  }

  /** `{ success: true, data }` or `{ success: false, error }`. */
  datatype ActionResult<+T> = Success(data: T) | Failure(error: string)

  /** `registerMonitor`: the response body on success; otherwise the most
      specific message available, in the order body `error` field, status
      text, transport message, generic text. */
  function RegisterMonitor(outcome: Outcome<Json>): (r: ActionResult<Json>)
    ensures r.Success? <==> outcome.Responded?
    ensures outcome.Responded? ==> r.data == outcome.data
    ensures r.Failure? ==> r.error != ""
  {
    match outcome
    case Responded(data) => Success(data)
    case Threw(e) =>
      Failure(FirstTruthy([ResponseDataError(e), ResponseStatusText(e), e.message], RegisterFallback))
  }

  /** The priority of `registerMonitor`'s error text, case by case. */
  lemma RegisterErrorPriority(e: RequestError)
    ensures var r := RegisterMonitor(Threw(e));
      r.Failure? &&
      (Truthy(ResponseDataError(e)) ==> r.error == ResponseDataError(e).value) &&
      (!Truthy(ResponseDataError(e)) && Truthy(ResponseStatusText(e)) ==>
         r.error == ResponseStatusText(e).value) &&
      (!Truthy(ResponseDataError(e)) && !Truthy(ResponseStatusText(e)) && Truthy(e.message) ==>
         r.error == e.message.value) &&
      (!Truthy(ResponseDataError(e)) && !Truthy(ResponseStatusText(e)) && !Truthy(e.message) ==>
         r.error == RegisterFallback)
  {
    var c := [ResponseDataError(e), ResponseStatusText(e), e.message];
    assert c[0] == ResponseDataError(e) && c[1] == ResponseStatusText(e) && c[2] == e.message;
  }

  /** `getMonitorState`: the response body on success; otherwise the
      transport message, or a generic text. */
  function GetMonitorState(outcome: Outcome<Json>): (r: ActionResult<Json>)
    ensures r.Success? <==> outcome.Responded?
    ensures outcome.Responded? ==> r.data == outcome.data
    ensures outcome.Threw? && Truthy(outcome.error.message) ==> r.error == outcome.error.message.value
    ensures outcome.Threw? && !Truthy(outcome.error.message) ==> r.error == StateFallback
  {
    match outcome
    case Responded(data) => Success(data)
    case Threw(e) => Failure(FirstTruthy([e.message], StateFallback))
  }

  /** Unlike `registerMonitor`, `getMonitorState` never consults the error
      response: two failures with the same message give the same result. */
  lemma StateErrorIgnoresResponse(a: RequestError, b: RequestError)
    requires a.message == b.message
    ensures GetMonitorState(Threw(a)) == GetMonitorState(Threw(b))
  {
  }
}
