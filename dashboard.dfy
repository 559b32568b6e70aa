/** The live dashboard (components/DashboardTable.tsx): a poller that folds
    each state read into held state, the screen chosen from that state, and
    the mapping of one endpoint record to the cells of its table row. */
module Dashboard {
  import opened Js
  import opened Transport

  const LoadFallback: string := "Failed to load data"
  const UnknownLabel: string := "UNKNOWN"
  const NoLatency: string := "---"
  const NullLatency: string := "nullms"

  /** The `latency` field of a record. The cell tests it against
      `undefined` only, so a JSON `null` is a value of its own here. */
  datatype Latency = Undefined | Null | Millis(ms: int)

  /** One endpoint record as the backend reports it. */
  datatype EndpointState = EndpointState(
    endpointId: string,
    urlEndpoint: string,
    healthStatus: Option<string>,
    healthyThreshold: int,
    failureThreshold: int,
    streak: int,
    lastCheckedAt: Option<int>,
    latency: Latency)

  /** A decoded state response: a JSON array (of endpoint records), or any
      other JSON value. */
  datatype StatePayload = EndpointList(items: seq<EndpointState>) | NotAnArray

  /** The held state of the component: `data`, `loading`, `error`. */
  datatype PollState = PollState(data: seq<EndpointState>, loading: bool, error: Option<string>)

  function InitialState(): PollState {
    PollState([], true, None)
  }

  /** The snapshot a successful read installs: the array itself, in the order
      received, or nothing for a payload that is not an array. */
  function Snapshot(p: StatePayload): (d: seq<EndpointState>)
    ensures p.EndpointList? ==> d == p.items
    ensures p.NotAnArray? ==> d == []
  {
    if p.EndpointList? then p.items else []
  }

  /** The text recorded for a failed read: the error field of the response
      body, else the transport message, else a generic text. */
  function FailureText(e: RequestError): (r: string)
    ensures r != ""
    ensures Truthy(ResponseDataError(e)) ==> r == ResponseDataError(e).value
    ensures !Truthy(ResponseDataError(e)) && Truthy(e.message) ==> r == e.message.value
    ensures !Truthy(ResponseDataError(e)) && !Truthy(e.message) ==> r == LoadFallback
  {
    var c := [ResponseDataError(e), e.message];
    assert c[0] == ResponseDataError(e) && c[1] == e.message;
    FirstTruthy(c, LoadFallback)
  }

  /** Which `data` the failure branch's `data.length === 0` test reads. The
      interval callback is the `fetchData` of the first render, whose `data`
      is the initial empty list (StaleClosure); LiveData is the current
      snapshot, as the test is evidently meant to read it. */
  datatype Guard = StaleClosure | LiveData

  function GuardData(g: Guard, s: PollState): seq<EndpointState> {
    match g
    case StaleClosure => []
    case LiveData => s.data
  }

  /** One completed `fetchData`: a response installs its snapshot and clears
      the error; a failure keeps the snapshot and records its text when the
      guard's list is empty, otherwise keeps the old error; either way
      loading ends. */
  function Tick(s: PollState, o: Outcome<StatePayload>, g: Guard): (t: PollState)
    ensures !t.loading
    ensures o.Responded? ==> t.data == Snapshot(o.data) && t.error == None
    ensures o.Threw? ==> t.data == s.data
    ensures o.Threw? && |GuardData(g, s)| == 0 ==> t.error == Some(FailureText(o.error))
    ensures o.Threw? && |GuardData(g, s)| > 0 ==> t.error == s.error
  {
    match o
    case Responded(p) => PollState(Snapshot(p), false, None)
    case Threw(e) =>
      PollState(s.data, false, if |GuardData(g, s)| == 0 then Some(FailureText(e)) else s.error)
  }

  /** A sequence of reads applied in the order they complete. */
  function Run(s: PollState, ticks: seq<Outcome<StatePayload>>, g: Guard): (r: PollState)
    ensures ticks == [] ==> r == s
    ensures ticks != [] ==> r == Tick(Run(s, ticks[..|ticks| - 1], g), ticks[|ticks| - 1], g)
    decreases |ticks|
  {
    if ticks == [] then s
    else
      var t := Tick(s, ticks[0], g);
      var rest := ticks[1..];
      var r := Run(t, rest, g);
      if rest == [] then
        assert ticks[..|ticks| - 1] == [];
        r
      else
        var init := ticks[..|ticks| - 1];
        assert init[0] == ticks[0] && init[1..] == rest[..|rest| - 1];
        assert Run(s, init, g) == Run(t, rest[..|rest| - 1], g);
        r
  }

  /** After the first completed read the component is never loading again. */
  lemma RunSettles(s: PollState, ticks: seq<Outcome<StatePayload>>, g: Guard)
    requires |ticks| > 0
    ensures !Run(s, ticks, g).loading
  {
  }

  /** Failed reads never touch the snapshot. */
  lemma {:induction false} RunFailuresKeepData(s: PollState, ticks: seq<Outcome<StatePayload>>, g: Guard)
    requires forall i :: 0 <= i < |ticks| ==> ticks[i].Threw?
    ensures Run(s, ticks, g).data == s.data
    decreases |ticks|
  {
    if ticks != [] {
      assert forall i :: 0 <= i < |ticks| - 1 ==> ticks[1..][i] == ticks[i + 1];
      RunFailuresKeepData(Tick(s, ticks[0], g), ticks[1..], g);
    }
  }

  /** Last completed success wins: the snapshot is the one installed by the
      last successful read, however many failures follow it. */
  lemma {:induction false} RunLastResponseWins(s: PollState, ticks: seq<Outcome<StatePayload>>, g: Guard, k: nat)
    requires k < |ticks| && ticks[k].Responded?
    requires forall i :: k < i < |ticks| ==> ticks[i].Threw?
    ensures Run(s, ticks, g).data == Snapshot(ticks[k].data)
    decreases |ticks|
  {
    assert forall i :: 0 <= i < |ticks| - 1 ==> ticks[1..][i] == ticks[i + 1];
    if k == 0 {
      RunFailuresKeepData(Tick(s, ticks[0], g), ticks[1..], g);
    } else {
      RunLastResponseWins(Tick(s, ticks[0], g), ticks[1..], g, k - 1);
    }
  }

  /** How a status reads in its badge. */
  datatype StatusStyle = Positive | Negative | Neutral

  /** The "Last Scan" cell: a placeholder, or the local time of the stamp. */
  datatype TimeCell = NoScan | LocalTime(epochMillis: int)

  /** The cells of one table row; `key` is the React key. */
  datatype Row = Row(
    key: string,
    target: string,
    style: StatusStyle,
    badgeText: string,
    healthyThreshold: int,
    failureThreshold: int,
    streak: int,
    latency: string,
    lastScan: TimeCell)

  datatype TableBody = NoSignal | Rows(rows: seq<Row>)

  /** What the component renders. */
  datatype Screen = Initializing | ErrorBanner(text: string) | Table(body: TableBody)

  /** `getStatusColor`: the status compared after upper-casing. */
  function StatusStyleOf(status: Option<string>): (r: StatusStyle)
    ensures r == Positive <==> status.Some? && AsciiUpper(status.value) == "HEALTHY"
    ensures r == Negative <==> status.Some? && AsciiUpper(status.value) == "UNHEALTHY"
  {
    match status
    case None => Neutral
    case Some(s) =>
      var u := AsciiUpper(s);
      if u == "HEALTHY" then Positive else if u == "UNHEALTHY" then Negative else Neutral
  }

  /** The style depends on the status only up to letter case. */
  lemma StatusStyleIgnoresCase(s: string)
    ensures StatusStyleOf(Some(AsciiUpper(s))) == StatusStyleOf(Some(s))
  {
  }

  /** A lower-case "healthy" gets the same positive style as "HEALTHY". */
  lemma LowerCaseHealthy()
    ensures StatusStyleOf(Some("healthy")) == StatusStyleOf(Some("HEALTHY")) == Positive
  {
  }

  /** The badge text: the status itself, or UNKNOWN when it is absent or
      empty. */
  function StatusLabel(status: Option<string>): (r: string)
    ensures r != ""
    ensures Truthy(status) ==> r == status.value
    ensures !Truthy(status) ==> r == UnknownLabel
  {
    FirstTruthy([status], UnknownLabel)
  }

  /** The latency cell: `<n>ms` for a number, the literal text for a
      `null`, and a placeholder only when the field is undefined, so an
      absent latency never reads as a number. */
  function LatencyText(latency: Latency): (r: string)
    ensures latency.Undefined? <==> r == NoLatency
    ensures latency.Null? ==> r == NullLatency
    ensures latency.Millis? ==>
              |r| > 2 && r[|r| - 2..] == "ms" && ParseDecimal(r[..|r| - 2]) == Some(latency.ms)
  {
    match latency
    case Undefined => NoLatency
    case Null => NullLatency
    case Millis(n) =>
      var digits := DecimalString(n);
      DecimalRoundTrip(n);
      var r := digits + "ms";
      assert r[|r| - 2..] == "ms" && r[..|r| - 2] == digits;
      assert NoLatency[1..] == "--";
      r
  }

  /** The number's text in the latency cell is exactly its canonical
      rendering: no other digit string reads back as the latency. */
  lemma LatencyTextExact(n: int)
    ensures LatencyText(Millis(n)) == DecimalString(n) + "ms"
  {
  }

  /** `formatTime`: a zero or absent stamp shows the placeholder. */
  function FormatTime(ts: Option<int>): (c: TimeCell)
    ensures c == NoScan <==> ts.None? || ts.value == 0
    ensures c.LocalTime? ==> c.epochMillis == ts.value
  {
    match ts
    case None => NoScan
    case Some(t) => if t == 0 then NoScan else LocalTime(t)
  }

  /** One table row: keyed by the endpoint id, the target and counters as
      reported, the badge never blank, and the latency and time cells showing
      their placeholders exactly when the record has no value for them. */
  function RowOf(e: EndpointState): (r: Row)
    ensures r.key == e.endpointId && r.target == e.urlEndpoint
    ensures r.healthyThreshold == e.healthyThreshold && r.failureThreshold == e.failureThreshold
    ensures r.streak == e.streak
    ensures r.style == StatusStyleOf(e.healthStatus) && r.badgeText != ""
    ensures r.badgeText == StatusLabel(e.healthStatus) && r.latency == LatencyText(e.latency)
    ensures r.lastScan == FormatTime(e.lastCheckedAt)
    ensures r.latency == NoLatency <==> e.latency.Undefined?
    ensures r.lastScan == NoScan <==> e.lastCheckedAt.None? || e.lastCheckedAt.value == 0
  {
    Row(e.endpointId, e.urlEndpoint, StatusStyleOf(e.healthStatus), StatusLabel(e.healthStatus),
        e.healthyThreshold, e.failureThreshold, e.streak, LatencyText(e.latency),
        FormatTime(e.lastCheckedAt))
  }

  /** One row per record, in snapshot order. */
  function RenderRows(data: seq<EndpointState>): (rows: seq<Row>)
    ensures |rows| == |data|
    ensures forall i :: 0 <= i < |data| ==> rows[i] == RowOf(data[i])
  {
    if data == [] then [] else [RowOf(data[0])] + RenderRows(data[1..])
  }

  /** The render: the initializing notice while the first read is pending
      and nothing is held; the error banner when an error is held and
      nothing is; otherwise the table, with the "no signal" row when it is
      empty. A non-empty snapshot is always shown as rows. */
  function ViewOf(s: PollState): (v: Screen)
    ensures v.Initializing? <==> s.loading && |s.data| == 0
    ensures v.ErrorBanner? <==> !s.loading && Truthy(s.error) && |s.data| == 0
    ensures v.ErrorBanner? ==> v.text == s.error.value
    ensures v == Table(NoSignal) <==> !s.loading && !Truthy(s.error) && |s.data| == 0
    ensures |s.data| > 0 ==> v == Table(Rows(RenderRows(s.data)))
  {
    if s.loading && |s.data| == 0 then Initializing
    else if Truthy(s.error) && |s.data| == 0 then ErrorBanner(s.error.value)
    else Table(if |s.data| == 0 then NoSignal else Rows(RenderRows(s.data)))
  }

  /** A dashboard that shows rows keeps showing the same rows through any
      run of failed reads: no error banner replaces a non-empty table. */
  lemma {:induction false} FailuresKeepTable(s: PollState, ticks: seq<Outcome<StatePayload>>, g: Guard)
    requires |s.data| > 0
    requires forall i :: 0 <= i < |ticks| ==> ticks[i].Threw?
    ensures ViewOf(Run(s, ticks, g)) == ViewOf(s)
  {
    RunFailuresKeepData(s, ticks, g);
  }

  /** Failed reads while nothing is held show the latest failure's text. */
  lemma {:induction false} FailuresOnEmptyShowError(s: PollState, ticks: seq<Outcome<StatePayload>>, g: Guard)
    requires |s.data| == 0 && |ticks| > 0
    requires forall i :: 0 <= i < |ticks| ==> ticks[i].Threw?
    ensures ViewOf(Run(s, ticks, g)) == ErrorBanner(FailureText(ticks[|ticks| - 1].error))
    decreases |ticks|
  {
    var t := Tick(s, ticks[0], g);
    assert |t.data| == 0;
    if |ticks| == 1 {
      assert ticks[1..] == [];
    } else {
      assert forall i :: 0 <= i < |ticks| - 1 ==> ticks[1..][i] == ticks[i + 1];
      FailuresOnEmptyShowError(t, ticks[1..], g);
    }
  }

  /** Two held states that render alike and keep rendering alike: same
      snapshot, same loading flag, and the same error while nothing is held. */
  ghost predicate Indistinguishable(a: PollState, b: PollState) {
    a.data == b.data && a.loading == b.loading && (|a.data| == 0 ==> a.error == b.error)
  }

  lemma {:induction false} IndistinguishableRuns(a: PollState, b: PollState, ticks: seq<Outcome<StatePayload>>)
    requires Indistinguishable(a, b)
    ensures Indistinguishable(Run(a, ticks, StaleClosure), Run(b, ticks, LiveData))
    ensures ViewOf(Run(a, ticks, StaleClosure)) == ViewOf(Run(b, ticks, LiveData))
    decreases |ticks|
  {
    if ticks != [] {
      IndistinguishableRuns(Tick(a, ticks[0], StaleClosure), Tick(b, ticks[0], LiveData), ticks[1..]);
    }
  }

  /** The stale closure records an error on every failure, but what is
      rendered is exactly what a guard reading the live snapshot gives. */
  lemma {:induction false} StaleClosureInvisible(s: PollState, ticks: seq<Outcome<StatePayload>>)
    ensures ViewOf(Run(s, ticks, StaleClosure)) == ViewOf(Run(s, ticks, LiveData))
  {
    IndistinguishableRuns(s, s, ticks);
  }

  /** With the live guard an error is only ever held while the snapshot is
      empty. */
  lemma {:induction false} LiveGuardErrorOnlyWhenEmpty(s: PollState, ticks: seq<Outcome<StatePayload>>)
    requires s.error.Some? ==> |s.data| == 0
    ensures var t := Run(s, ticks, LiveData); t.error.Some? ==> |t.data| == 0
    decreases |ticks|
  {
    if ticks != [] {
      LiveGuardErrorOnlyWhenEmpty(Tick(s, ticks[0], LiveData), ticks[1..]);
    }
  }

  /** The stale closure does record an error behind a full table: after a
      successful read of one record and a failure, the error is held yet the
      table is what shows. */
  lemma StaleClosureRecordsHiddenError(e1: EndpointState, err: RequestError)
    ensures var t := Run(InitialState(), [Responded(EndpointList([e1])), Threw(err)], StaleClosure);
      t.data == [e1] && t.error == Some(FailureText(err)) && ViewOf(t) == Table(Rows([RowOf(e1)]))
  {
    var ticks: seq<Outcome<StatePayload>> := [Responded(EndpointList([e1])), Threw(err)];
    var t1 := Tick(InitialState(), ticks[0], StaleClosure);
    var rest: seq<Outcome<StatePayload>> := [Threw(err)];
    assert ticks[1..] == rest && rest[1..] == [];
    var t2 := Tick(t1, Threw(err), StaleClosure);
    assert Run(InitialState(), ticks, StaleClosure) == Run(t1, rest, StaleClosure) == Run(t2, [], StaleClosure);
    assert t1.data == [e1] && t2.data == [e1];
    assert RenderRows([e1]) == [RowOf(e1)];
  }

  /** Reads ok([]), fail, fail, ok([e1]): an empty table, the error banner
      after the second and third read, then exactly the one row of e1. */
  lemma PollScenario(e1: EndpointState, err2: RequestError, err3: RequestError)
    ensures var s1 := Run(InitialState(), [Responded(EndpointList([]))], StaleClosure);
      var s2 := Run(s1, [Threw(err2)], StaleClosure);
      var s3 := Run(s2, [Threw(err3)], StaleClosure);
      var s4 := Run(s3, [Responded(EndpointList([e1]))], StaleClosure);
      ViewOf(s1) == Table(NoSignal) &&
      ViewOf(s2) == ErrorBanner(FailureText(err2)) &&
      ViewOf(s3) == ErrorBanner(FailureText(err3)) &&
      s4.data == [e1] && s4.error == None && ViewOf(s4) == Table(Rows([RowOf(e1)]))
  {
    assert RenderRows([e1]) == [RowOf(e1)];
  }

  /** The component. `capturedData` is the `data` that the `fetchData`
      closure registered by the mount effect sees: the first render's. */
  class DashboardTable {
    var data: seq<EndpointState>
    var loading: bool
    var error: Option<string>
    const capturedData: seq<EndpointState>

    ghost predicate Valid()
      reads this
    {
      capturedData == [] && (loading ==> data == [] && error == None)
    }

    function State(): PollState
      reads this
    {
      PollState(data, loading, error)
    }

    constructor ()
      ensures Valid() && State() == InitialState()
    {
      data := [];
      loading := true;
      error := None;
      capturedData := [];
    }

    /** `fetchData`, once its read has completed with `outcome`. */
    method FetchData(outcome: Outcome<StatePayload>)
      requires Valid()
      modifies this
      ensures Valid() && !loading
      ensures State() == Tick(old(State()), outcome, StaleClosure)
      ensures outcome.Responded? ==> data == Snapshot(outcome.data) && error == None
      ensures outcome.Threw? ==> data == old(data) && error == Some(FailureText(outcome.error))
    {
      match outcome {
        case Responded(json) =>
          if json.EndpointList? {
            data := json.items;
          } else {
            data := [];
          }
          error := None;
        case Threw(err) =>
          if |capturedData| == 0 {
            error := Some(FailureText(err));
          }
      }
      loading := false;
    }
  }
}
