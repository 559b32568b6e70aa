/** The registration form (components/MonitorForm.tsx): a draft check
    definition edited field by field, validated fail-fast on submit, turned
    into a normalised payload and handed to `registerMonitor`. */
module Registration {
  import opened Js
  import opened Transport
  import Actions

  /** A form field holds the text typed into it, or a number for the six
      numeric inputs. */
  datatype FieldValue = Text(text: string) | Number(number: int)

  /** The `formData` record, keyed by input name. */
  type FormState = map<string, FieldValue>

  /** The input names whose value `handleChange` stores as a number. */
  const NumericFields: seq<string> :=
    ["timeout", "expected_status_code", "latency_threshold",
     "healthy_threshold", "failure_threshold", "schedule_interval"]

  /** The methods for which the body text is parsed. */
  const BodyMethods: seq<string> := ["POST", "PUT", "PATCH"]

  const MinScheduleInterval: int := 3000
  const IntervalMessage: string := "Schedule interval must be at least 3000ms"
  const HeadersMessage: string := "Headers must be valid JSON"
  const BodyMessage: string := "Body must be valid JSON"
  const SuccessMessage: string := "Monitor registered successfully!"
  const SubmitFallback: string := "Failed to register monitor"

  /** `propsIsNumber`: one of the six numeric inputs; none of the text inputs
      is among them. */
  predicate PropsIsNumber(name: string)
    ensures PropsIsNumber(name) ==> name != "url" && name != "method" && name != "headers" && name != "body"
  {
    name in NumericFields
  }

  predicate HasText(f: FormState, key: string) {
    key in f && f[key].Text?
  }

  predicate HasNumber(f: FormState, key: string) {
    key in f && f[key].Number?
  }

  /** Every input of the form is present with the kind of value the form
      keeps for it. */
  predicate WellFormed(f: FormState) {
    HasText(f, "url") && HasText(f, "method") && HasText(f, "headers") && HasText(f, "body") &&
    HasNumber(f, "timeout") && HasNumber(f, "expected_status_code") &&
    HasNumber(f, "latency_threshold") && HasNumber(f, "healthy_threshold") &&
    HasNumber(f, "failure_threshold") && HasNumber(f, "schedule_interval")
  }

  function TextOf(f: FormState, key: string): string
    requires HasText(f, key)
  {
    f[key].text
  }

  function NumberOf(f: FormState, key: string): int
    requires HasNumber(f, key)
  {
    f[key].number
  }

  /** The draft the form starts with. */
  function InitialForm(): (f: FormState)
    ensures WellFormed(f)
    ensures NumberOf(f, "schedule_interval") >= MinScheduleInterval
    ensures TextOf(f, "headers") == "" && TextOf(f, "body") == ""
  {
    map[
      "url" := Text("https://www.google.com"),
      "method" := Text("GET"),
      "headers" := Text(""),
      "body" := Text(""),
      "timeout" := Number(5000),
      "expected_status_code" := Number(200),
      "latency_threshold" := Number(1000),
      "healthy_threshold" := Number(3),
      "failure_threshold" := Number(3),
      "schedule_interval" := Number(10000)
    ]
  }

  /** The value `handleChange` stores: `Number(value)` for a numeric input,
      the raw text otherwise. `toNumber` stands for JavaScript's `Number`. */
  function Coerce(name: string, value: string, toNumber: string -> int): FieldValue {
    if PropsIsNumber(name) then Number(toNumber(value)) else Text(value)
  }

  /** The draft after one edit: only the named field changes, it is
      numeric exactly for the six numeric names, and a well-formed draft
      stays well-formed whatever the name. */
  function WithField(f: FormState, name: string, value: string, toNumber: string -> int): (g: FormState)
    ensures g.Keys == f.Keys + {name}
    ensures forall k :: k in f && k != name ==> g[k] == f[k]
    ensures g[name].Number? <==> PropsIsNumber(name)
    ensures g[name].Number? ==> g[name].number == toNumber(value)
    ensures g[name].Text? ==> g[name].text == value
    ensures WellFormed(f) ==> WellFormed(g)
  {
    f[name := Coerce(name, value, toNumber)]
  }

  /** The body sent to `registerMonitor`. */
  datatype Payload = Payload(
    url: string,
    httpMethod: string,
    headers: Json,
    body: Json,
    timeout: int,
    expectedStatusCode: int,
    latencyThreshold: int,
    healthyThreshold: int,
    failureThreshold: int,
    scheduleInterval: int)

  /** The outcome of the checks made before anything is sent. */
  datatype Validation = Accepted(payload: Payload) | Rejected(reason: string)

  /** Headers text that is present but does not parse. */
  predicate HeadersRejected(f: FormState, parse: string -> Option<Json>)
    requires WellFormed(f)
  {
    TextOf(f, "headers") != "" && parse(TextOf(f, "headers")).None?
  }

  /** The body text is parsed only when present and the method carries one. */
  predicate BodyIsParsed(f: FormState)
    requires WellFormed(f)
  {
    TextOf(f, "body") != "" && TextOf(f, "method") in BodyMethods
  }

  predicate BodyRejected(f: FormState, parse: string -> Option<Json>)
    requires WellFormed(f)
  {
    BodyIsParsed(f) && parse(TextOf(f, "body")).None?
  }

  /** A JSON text field read the way the form reads it: `{}` when it is not
      to be parsed, otherwise whatever `JSON.parse` makes of it. */
  function ParseOrEmpty(parseIt: bool, text: string, parse: string -> Option<Json>): Option<Json> {
    if parseIt then parse(text) else Some(EmptyObject)
  }

  /** The checks of `handleSubmit`, first failure wins: the interval, then
      the headers, then the body; when all pass, the normalised payload. */
  function Validate(f: FormState, parse: string -> Option<Json>): (r: Validation)
    requires WellFormed(f)
    ensures r == Rejected(IntervalMessage) <==> NumberOf(f, "schedule_interval") < MinScheduleInterval
    ensures r == Rejected(HeadersMessage) <==>
              NumberOf(f, "schedule_interval") >= MinScheduleInterval && HeadersRejected(f, parse)
    ensures r == Rejected(BodyMessage) <==>
              NumberOf(f, "schedule_interval") >= MinScheduleInterval && !HeadersRejected(f, parse) &&
              BodyRejected(f, parse)
    ensures r.Accepted? <==>
              NumberOf(f, "schedule_interval") >= MinScheduleInterval && !HeadersRejected(f, parse) &&
              !BodyRejected(f, parse)
    ensures r.Accepted? ==>
              r.payload.url == TextOf(f, "url") && r.payload.httpMethod == TextOf(f, "method") &&
              r.payload.timeout == NumberOf(f, "timeout") &&
              r.payload.expectedStatusCode == NumberOf(f, "expected_status_code") &&
              r.payload.latencyThreshold == NumberOf(f, "latency_threshold") &&
              r.payload.healthyThreshold == NumberOf(f, "healthy_threshold") &&
              r.payload.failureThreshold == NumberOf(f, "failure_threshold") &&
              r.payload.scheduleInterval == NumberOf(f, "schedule_interval")
    ensures r.Accepted? ==>
              r.payload.headers ==
                (if TextOf(f, "headers") == "" then EmptyObject else parse(TextOf(f, "headers")).value)
    ensures r.Accepted? ==>
              r.payload.body == (if BodyIsParsed(f) then parse(TextOf(f, "body")).value else EmptyObject)
  {
    if NumberOf(f, "schedule_interval") < MinScheduleInterval then Rejected(IntervalMessage)
    else
      match ParseOrEmpty(TextOf(f, "headers") != "", TextOf(f, "headers"), parse)
      case None => Rejected(HeadersMessage)
      case Some(headers) =>
        match ParseOrEmpty(BodyIsParsed(f), TextOf(f, "body"), parse)
        case None => Rejected(BodyMessage)
        case Some(body) =>
          Accepted(Payload(TextOf(f, "url"), TextOf(f, "method"), headers, body,
                           NumberOf(f, "timeout"), NumberOf(f, "expected_status_code"),
                           NumberOf(f, "latency_threshold"), NumberOf(f, "healthy_threshold"),
                           NumberOf(f, "failure_threshold"), NumberOf(f, "schedule_interval")))
  }

  /** For a method without a body (GET, DELETE, ...) the body text plays no
      part: even text that is not JSON is accepted and sent as `{}`. */
  lemma BodyIgnoredWithoutBodyMethod(f: FormState, parse: string -> Option<Json>, text: string)
    requires WellFormed(f) && TextOf(f, "method") !in BodyMethods
    ensures WellFormed(f["body" := Text(text)])
    ensures Validate(f["body" := Text(text)], parse) == Validate(f, parse)
  {
  }

  /** Whether the submit ended in a success or an error banner. */
  datatype NoticeKind = SuccessNotice | ErrorNotice

  /** The `message` shown under the form. */
  datatype Notice = Notice(kind: NoticeKind, text: string)

  /** The error banner for a thrown message; an empty message falls back to
      a generic text. */
  function ErrorNoticeFor(thrown: string): (n: Notice)
    ensures n.kind == ErrorNotice && n.text != ""
    ensures thrown != "" ==> n.text == thrown
    ensures thrown == "" ==> n.text == SubmitFallback
  {
    Notice(ErrorNotice, FirstTruthy([Some(thrown)], SubmitFallback))
  }

  /** How the awaited `registerMonitor` call ends on the client: the action
      ran and returned its tagged result for the backend request's `outcome`,
      or the call itself rejected (the server action could not be reached)
      with an error whose message is `message`. */
  datatype ActionCall = Delivered(outcome: Outcome<Json>) | CallRejected(message: string)

  /** The message a submit ends with, given the checks' outcome and how the
      action call ends. A failure reported by the action shows the gateway's
      own (never empty) text; the generic fallback can only show when the
      call itself rejects with an empty message. */
  function SubmitNotice(v: Validation, call: ActionCall): (n: Notice)
    ensures n.kind == SuccessNotice <==> v.Accepted? && call.Delivered? && call.outcome.Responded?
    ensures n.kind == SuccessNotice ==> n.text == SuccessMessage
    ensures v.Rejected? && v.reason != "" ==> n.text == v.reason
    ensures v.Accepted? && call.Delivered? && call.outcome.Threw? ==>
              n.text == Actions.RegisterMonitor(call.outcome).error
    ensures v.Accepted? && call.CallRejected? && call.message != "" ==> n.text == call.message
    ensures v.Accepted? && call.CallRejected? && call.message == "" ==> n.text == SubmitFallback
    ensures n.text != ""
  {
    match v
    case Rejected(reason) => ErrorNoticeFor(reason)
    case Accepted(_) =>
      match call
      case CallRejected(m) => ErrorNoticeFor(m)
      case Delivered(outcome) =>
        match Actions.RegisterMonitor(outcome)
        case Success(_) => Notice(SuccessNotice, SuccessMessage)
        case Failure(e) => ErrorNoticeFor(e)
  }

  /** The form component: the draft, the busy flag and the message. */
  class MonitorForm {
    var formData: FormState
    var loading: bool
    var message: Option<Notice>

    ghost predicate Valid()
      reads this
    {
      WellFormed(formData)
    }

    constructor ()
      ensures Valid()
      ensures formData == InitialForm() && !loading && message == None
    {
      formData := InitialForm();
      loading := false;
      message := None;
    }

    /** `handleChange`: stores the edited input under its name. */
    method HandleChange(name: string, value: string, toNumber: string -> int)
      requires Valid()
      modifies this
      ensures Valid()
      ensures formData == WithField(old(formData), name, value, toNumber)
      ensures loading == old(loading) && message == old(message)
    {
      formData := formData[name := Coerce(name, value, toNumber)];
    }

    /** The opening of `handleSubmit`: busy, and no message while the
        submit is under way. */
    method BeginSubmit()
      modifies this
      ensures loading && message == None
      ensures formData == old(formData)
    {
      loading := true;
      message := None;
    }

    /** The end of `handleSubmit` (its `catch` or last statement, then
        `finally`): the message is set and the form is no longer busy. */
    method Settle(notice: Notice)
      modifies this
      ensures message == Some(notice) && !loading
      ensures formData == old(formData)
    {
      message := Some(notice);
      loading := false;
    }

    /** `handleSubmit`. `parse` stands for `JSON.parse` (None when it
        throws) and `call` for how the `registerMonitor` call would end.
        `sent` is the payload handed to `registerMonitor`, or None when the
        call is never made. */
    method HandleSubmit(parse: string -> Option<Json>, call: ActionCall) returns (sent: Option<Payload>)
      requires Valid()
      modifies this
      ensures Valid() && formData == old(formData) && !loading
      ensures sent.Some? <==> Validate(formData, parse).Accepted?
      ensures sent.Some? ==> sent.value == Validate(formData, parse).payload
      ensures message == Some(SubmitNotice(Validate(formData, parse), call))
    {
      BeginSubmit();
      if NumberOf(formData, "schedule_interval") < MinScheduleInterval {
        Settle(ErrorNoticeFor(IntervalMessage));
        return None;
      }

      var parsedHeaders := EmptyObject;
      var headersText := TextOf(formData, "headers");
      if headersText != "" {
        var h := parse(headersText);
        if h.None? {
          Settle(ErrorNoticeFor(HeadersMessage));
          return None;
        }
        parsedHeaders := h.value;
      }

      var parsedBody := EmptyObject;
      var bodyText := TextOf(formData, "body");
      if bodyText != "" && TextOf(formData, "method") in BodyMethods {
        var b := parse(bodyText);
        if b.None? {
          Settle(ErrorNoticeFor(BodyMessage));
          return None;
        }
        parsedBody := b.value;
      }

      var payload := Payload(
        TextOf(formData, "url"), TextOf(formData, "method"), parsedHeaders, parsedBody,
        NumberOf(formData, "timeout"), NumberOf(formData, "expected_status_code"),
        NumberOf(formData, "latency_threshold"), NumberOf(formData, "healthy_threshold"),
        NumberOf(formData, "failure_threshold"), NumberOf(formData, "schedule_interval"));
      sent := Some(payload);

      match call {
        case CallRejected(m) =>
          Settle(ErrorNoticeFor(m));
        case Delivered(outcome) =>
          var result := Actions.RegisterMonitor(outcome);
          if result.Failure? {
            Settle(ErrorNoticeFor(result.error));
          } else {
            Settle(Notice(SuccessNotice, SuccessMessage));
          }
      }
    }
  }
}
