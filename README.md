# API health monitor client: a Dafny model

This project models the client logic of a small web front end for an API
health-monitoring backend. The front end has three pieces of logic:

- **Registration form** (`components/MonitorForm.tsx`). It keeps a draft check
  definition, updates it one input at a time, and validates it on submit. The
  checks run in a fixed order (interval, then headers JSON, then body JSON) and
  the first failure wins. A draft that passes becomes a normalised payload,
  which is handed to `registerMonitor`. The form then shows a success or error
  message.
- **Dashboard** (`components/DashboardTable.tsx`). It polls the state endpoint
  and folds each completed read into the held `data`, `loading` and `error`.
  From that state it picks one of three screens: initializing, error banner, or
  table. It also maps each endpoint record to the cells of a table row: status
  style, badge text, latency text and last-scan time.
- **Server actions** (`app/actions.ts`). `registerMonitor` and
  `getMonitorState` never throw. Each returns a tagged success/failure result,
  and the error text comes from a fixed chain of fallbacks.

Files:

- `js.dfy`: the JavaScript semantics the code relies on. This covers
  `undefined`, string truthiness and `||` chains, JSON values, `toUpperCase`,
  and how an integer is rendered in a template literal (with a parse-back
  round trip).
- `transport.dfy`: the outcome of one awaited axios call. It is either the
  response or the thrown error, and the error carries an optional response
  body `error` field, an optional status text and a message.
- `actions.dfy`: the endpoint addresses and the two server actions.
- `registration.dfy`: the draft (`map<string, FieldValue>`), the validator
  `Validate`, the submit message `SubmitNotice`, and the class `MonitorForm`.
  `MonitorForm.HandleSubmit` is the imperative submit with early exits, proved
  against `Validate`.
- `dashboard.dfy`: the held state, one completed read (`Tick`), a replay of
  reads in completion order (`Run`), the render (`ViewOf`), the row mapper, and
  the class `DashboardTable`. `DashboardTable.FetchData` is proved against
  `Tick`.

Parameters stand in for calls the model does not see:

- `parse: string -> Option<Json>` is `JSON.parse`. None means it throws.
- `toNumber: string -> int` is `Number`.
- An `Outcome` value is what a network request produces.
- An `ActionCall` value is how the client's awaited `registerMonitor` call
  ends: the action's tagged result for its request's `Outcome`, or a rejection
  of the call itself, which carries an error message.
- `sent` (the out-parameter of `HandleSubmit`) records whether
  `registerMonitor` was called, and with which payload.

The interval callback of the dashboard is the `fetchData` closure of the first
render (components/DashboardTable.tsx:43-47). The `data` it reads in its failure
branch is therefore always the initial empty list, so every failed read records
an error, even behind a full table. The model keeps this: the `Guard`
parameter of `Tick` says which `data` the test reads, and `DashboardTable`
holds the captured list in `capturedData`. `StaleClosureRecordsHiddenError`
shows an error held behind a non-empty table. `StaleClosureInvisible` proves
that this never shows: over any sequence of reads, what is rendered equals what
a guard reading the live snapshot would render. So the recorded error and the
visible error are different notions, and only the recorded one differs.

Three behaviours of the code are worth noting:

- The payload always carries `body: {}` when the body is not parsed. The body
  is never omitted.
- A failed read records an error whatever the current snapshot, because of the
  stale closure above. Only its display is limited to an empty snapshot.
- The method is any string. `PATCH` counts as a body method although the
  form's select does not offer it.

## Model

| member | source | states |
|---|---|---|
| Js.FirstTruthy | app/actions.ts:21 | a chain of or-fallbacks yields the first truthy candidate, or the fallback when none is; a non-empty fallback makes the result non-empty |
| Js.AsciiUpper | components/DashboardTable.tsx:50 | upper-casing keeps the length and maps every character through the letter upper-caser |
| Js.UpperChar | components/DashboardTable.tsx:50 | a lower-case ASCII letter becomes its capital; every other character is kept |
| Js.AsciiUpperIdempotent | components/DashboardTable.tsx:50 | upper-casing an upper-cased string changes nothing |
| Js.NatDigits | components/DashboardTable.tsx:124 | the decimal rendering of a natural number is a canonical digit string (no leading zero) whose value is the number |
| Js.CanonicalPositive | components/DashboardTable.tsx:124 | a canonical digit string other than "0" has a positive value |
| Js.NatDigitsOfCanonical | components/DashboardTable.tsx:124 | every canonical digit string is the rendering of its own value |
| Js.DigitChar | components/DashboardTable.tsx:124 | a digit value becomes the digit character of that value |
| Js.DecimalRoundTrip | components/DashboardTable.tsx:124 | the rendering of any integer, negative ones included, reads back as that integer |
| Js.DecimalUnique | components/DashboardTable.tsx:124 | the rendering is the only text that reads back as that integer |
| Transport.ResponseDataError | app/actions.ts:21 | the body's `error` field when a response arrived, and absent when none did |
| Transport.ResponseStatusText | app/actions.ts:21 | the response's status text when a response arrived, and absent when none did |
| Actions.ApiBaseUrl | app/actions.ts:5 | the configured base when it is set and not empty, otherwise the built-in address; never empty |
| Actions.MonitorApiUrl | app/actions.ts:6 | the registration address is the base followed by `/monitor` |
| Actions.StateApiUrl | app/actions.ts:7 | the state address is the base followed by `/state` |
| Actions.EndpointsDiffer | app/actions.ts:6-7 | the two endpoint addresses differ for every configuration |
| Actions.RegisterMonitor | app/actions.ts:9-24 | success exactly when a response arrived, carrying the response body unchanged; a failure always carries a non-empty error text |
| Actions.RegisterErrorPriority | app/actions.ts:21 | the failure text is the body `error` field, else the status text, else the transport message, else 'Failed to connect to backend' |
| Actions.GetMonitorState | app/actions.ts:26-42 | success exactly when a response arrived, carrying the body; a failure carries the transport message, else 'Failed to fetch state' |
| Actions.StateErrorIgnoresResponse | app/actions.ts:40 | the state action's failure text depends only on the message, never on the error response |
| Registration.PropsIsNumber | components/MonitorForm.tsx:33-42 | none of the text inputs (url, method, headers, body) is one of the numeric names |
| Registration.InitialForm | components/MonitorForm.tsx:12-23 | the default draft is well formed, has blank headers and body, and passes the interval check |
| Registration.WithField | components/MonitorForm.tsx:25-31 | an edit changes only the named field, stores a number exactly for the six numeric names and the raw text otherwise, and keeps a well-formed draft well formed |
| Registration.Validate | components/MonitorForm.tsx:52-85 | interval below 3000 rejects with the interval text; otherwise unparseable non-empty headers reject with the headers text; otherwise an unparseable body that is parsed rejects with the body text; otherwise the payload copies url, method and the six numbers, with headers and body parsed or `{}` |
| Registration.BodyIgnoredWithoutBodyMethod | components/MonitorForm.tsx:65-72 | for a method other than POST, PUT or PATCH, any body text, even invalid JSON, gives the same outcome |
| Registration.ErrorNoticeFor | components/MonitorForm.tsx:94-95 | an error banner shows the thrown message, or 'Failed to register monitor' when the message is empty |
| Registration.SubmitNotice | components/MonitorForm.tsx:87-95 | success is shown exactly when the checks pass and the action reports success; a rejected draft shows its check's text; a failure reported by the action shows the gateway's own error text; a rejected call shows its message, or 'Failed to register monitor' when that is empty; the text is never empty |
| Registration.MonitorForm.constructor | components/MonitorForm.tsx:9-23 | the form starts from the default draft, not busy, with no message |
| Registration.MonitorForm.HandleChange | components/MonitorForm.tsx:25-31 | the draft becomes the one-field update of the old draft; busy flag and message are untouched |
| Registration.MonitorForm.BeginSubmit | components/MonitorForm.tsx:47-49 | a submit starts busy with the message cleared and the draft untouched |
| Registration.MonitorForm.Settle | components/MonitorForm.tsx:94-98 | a submit ends with its message set and the form no longer busy |
| Registration.MonitorForm.HandleSubmit | components/MonitorForm.tsx:46-99 | the draft is never modified and the form is not busy afterwards; `registerMonitor` is called exactly when the checks pass, with exactly the validated payload; the message is the submit notice for the checks and the way the call ends |
| Dashboard.Snapshot | components/DashboardTable.tsx:29-33 | an array payload is installed as it is, in order; any other payload installs an empty snapshot |
| Dashboard.FailureText | components/DashboardTable.tsx:37 | the recorded error is the body `error` field, else the transport message, else 'Failed to load data'; never empty |
| Dashboard.Tick | components/DashboardTable.tsx:24-41 | a response installs its snapshot and clears the error; a failure keeps the snapshot, records the failure text when the guard's list is empty and otherwise keeps the old error; loading ends either way |
| Dashboard.Run | components/DashboardTable.tsx:43-47 | reads are applied in completion order: no reads leave the state as it is, and the last read is one step applied to the state the earlier reads produced |
| Dashboard.RunSettles | components/DashboardTable.tsx:38-40 | after the first completed read the component is never loading again |
| Dashboard.RunFailuresKeepData | components/DashboardTable.tsx:35-37 | failed reads never change the snapshot |
| Dashboard.RunLastResponseWins | components/DashboardTable.tsx:28-34 | the snapshot is the one installed by the last successful read in completion order |
| Dashboard.StatusStyleOf | components/DashboardTable.tsx:49-58 | positive exactly for statuses that upper-case to HEALTHY, negative exactly for UNHEALTHY, neutral for the rest and for an absent status |
| Dashboard.StatusStyleIgnoresCase | components/DashboardTable.tsx:50 | a status and its upper-cased form get the same style |
| Dashboard.LowerCaseHealthy | components/DashboardTable.tsx:50-52 | "healthy" and "HEALTHY" both get the positive style |
| Dashboard.StatusLabel | components/DashboardTable.tsx:114 | the badge shows the status when it is non-empty and UNKNOWN otherwise |
| Dashboard.LatencyText | components/DashboardTable.tsx:124 | an undefined latency shows `---` and nothing else does; a `null` latency shows `nullms`; a number shows its decimal value followed by `ms`, and that value reads back as the number |
| Dashboard.LatencyTextExact | components/DashboardTable.tsx:124 | a number's latency text is exactly its canonical decimal rendering followed by `ms` |
| Dashboard.FormatTime | components/DashboardTable.tsx:60-64 | a zero or absent stamp shows the placeholder; any other stamp is shown as local time of that stamp |
| Dashboard.RowOf | components/DashboardTable.tsx:108-129 | a row is keyed by the endpoint id, shows target, thresholds and streak as reported, styles the status, shows the status label as its badge, the latency text as its latency cell and the formatted stamp as its last-scan cell, and shows the latency and time placeholders exactly when the record has no value for them |
| Dashboard.RenderRows | components/DashboardTable.tsx:107-130 | one row per record, row i built from record i |
| Dashboard.ViewOf | components/DashboardTable.tsx:66-105 | initializing exactly when loading with nothing held; error banner exactly when not loading, an error is held and nothing is; the no-signal table exactly when nothing is held, not loading and no error; a non-empty snapshot always shows its rows |
| Dashboard.FailuresKeepTable | components/DashboardTable.tsx:35-72 | a dashboard showing rows keeps showing the same screen through any run of failed reads |
| Dashboard.FailuresOnEmptyShowError | components/DashboardTable.tsx:35-72 | failed reads while nothing is held show the error banner with the latest failure's text |
| Dashboard.IndistinguishableRuns | components/DashboardTable.tsx:37-47 | states that agree on snapshot, loading flag, and error when nothing is held stay in agreement and render alike under the stale and the live guard |
| Dashboard.StaleClosureInvisible | components/DashboardTable.tsx:37-47 | over any reads the stale-closure guard renders exactly what the live-snapshot guard renders |
| Dashboard.LiveGuardErrorOnlyWhenEmpty | components/DashboardTable.tsx:37 | with a guard reading the live snapshot, an error is held only while the snapshot is empty |
| Dashboard.StaleClosureRecordsHiddenError | components/DashboardTable.tsx:37-47 | with the captured empty list, a failure after one record is loaded records an error while the table keeps showing the record |
| Dashboard.PollScenario | components/DashboardTable.tsx:24-72 | reads ok([]), fail, fail, ok([e1]) show the empty table, the error banner twice, then exactly the row of e1 with no error |
| Dashboard.DashboardTable.constructor | components/DashboardTable.tsx:20-22 | the component starts with nothing held, loading, and no error |
| Dashboard.DashboardTable.FetchData | components/DashboardTable.tsx:24-41 | a response installs its snapshot and clears the error; a failure keeps the snapshot and records the failure text; loading is false afterwards; the new state is one `Tick` under the stale-closure guard |

## Left out

- Network I/O: the axios requests, their headers and their timeouts. Each request is an `Outcome` value given to the model.
- `JSON.parse` and `Number`: they are parameters, not modelled. Numbers are integers, so floating-point values and NaN are not represented, and a latency of magnitude 10^21 or more is rendered with all its digits where JavaScript switches to exponent form.
- Timing and overlap: the 5000 ms interval, the timer teardown, and overlapping reads. Reads are applied in the order they complete (`Run`).
- Element decoding: the elements of an array payload are taken to be endpoint records. The source casts them without any runtime check.
- Js.AsciiUpper: upper-cases ASCII letters only. Unicode case mapping is not modelled.
- Dashboard.FormatTime: a non-zero stamp is kept as the stamp itself. The locale time-of-day text is clock and locale formatting.
- Truthiness of non-strings: the error fields in the fallback chains are strings or absent. A non-string `error` field in a response body is not represented.
- Markup, CSS classes and inline styles: status styles are a three-value enum and rows are records of cell values.
- Browser-side input checks: the `required`/`type="url"` attributes and the slider's bounds are not part of `handleSubmit`.
- Console logging.
- app/page.tsx only composes the two components. It is not modelled.
- app/api/state/route.ts, the proxy the dashboard polls, is not modelled. On an upstream failure it answers with a body whose `error` field is the upstream message, or 'Failed to fetch state' when that is empty, with the upstream status or 500. Behind this proxy the body `error` field that `Dashboard.FailureText` reads first is therefore always non-empty; the model allows any body.
