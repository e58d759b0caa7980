/**
 * One invocation of the action: parse the labels, run the measurement step,
 * build the payload, push it once and report the outcome. Label parsing
 * (`JSON.parse`) and the HTTP POST are supplied as functions; the two clock
 * readings as a `Clock`.
 */
module SendLog {
  import opened Wrappers
  import opened Decimal
  import opened Measurement
  import opened Payload
  import opened Push

  /** The action's inputs, as read from the invocation environment. */
  datatype Inputs = Inputs(
    message: string,
    measurement: string,
    lokiAddress: string,
    lokiUsername: string,
    lokiPassword: string,
    lokiTenant: string,
    labels: string)

  /** The two readings of the clock in epoch milliseconds: one by the measurement step, one for the timestamp. */
  datatype Clock = Clock(atMeasurement: int, atPayload: int)

  /** How an invocation ends. */
  datatype Outcome =
    | LabelsRejected
    | Sent(request: Request, data: string)
    | PushFailed(request: Request, message: string)

  /** The outcome together with the timer slot left for the next invocation. */
  datatype Run = Run(outcome: Outcome, timer: Option<int>)

  const EmptyLabels: string := "{}"
  const LabelsErrorMessage: string := "Error parsing labels"

  /** The text handed to the JSON parser: the labels input, or `{}` when it is empty. */
  function LabelsText(inputs: Inputs): (text: string)
    ensures text != ""
    ensures inputs.labels == "" ==> text == EmptyLabels
    ensures inputs.labels != "" ==> text == inputs.labels
  {
    OrElse(inputs.labels, EmptyLabels)
  }

  /** The request the invocation posts, given the labels after the measurement step. */
  function BuildRequest(inputs: Inputs, ctx: RunContext, labels: map<string, string>, clock: Clock): (r: Request)
    ensures r.url == inputs.lokiAddress + PushPath
    ensures r.tenant != ""
    ensures inputs.lokiTenant != "" ==> r.tenant == inputs.lokiTenant
    ensures inputs.lokiTenant == "" ==> r.tenant == DefaultTenant
    ensures r.username == inputs.lokiUsername && r.password == inputs.lokiPassword
    ensures |r.body.streams| == 1
    ensures r.body.streams[0].values == [LogValue(Timestamp(clock.atPayload), inputs.message)]
    ensures r.body.streams[0].stream == StreamLabels(ctx, labels)
  {
    Request(
      PushUrl(inputs.lokiAddress),
      EffectiveTenant(inputs.lokiTenant),
      inputs.lokiUsername,
      inputs.lokiPassword,
      BuildPayload(inputs.message, labels, ctx, clock.atPayload))
  }

  /** The message the action fails with, or `None` when it succeeds. */
  function ReportedFailure(outcome: Outcome): (m: Option<string>)
    ensures m.None? <==> outcome.Sent?
    ensures outcome.LabelsRejected? ==> m == Some(LabelsErrorMessage)
    ensures outcome.PushFailed? ==> m == Some(outcome.message)
  {
    match outcome
    case LabelsRejected => Some(LabelsErrorMessage)
    case Sent(_, _) => None
    case PushFailed(_, message) => Some(message)
  }

  /** The whole invocation as a function of its inputs, the injected collaborators and the timer slot. */
  function Pipeline(
    inputs: Inputs, ctx: RunContext,
    parse: string -> Option<map<string, string>>, post: Request -> PostResult,
    clock: Clock, timer: Option<int>): (r: Run)
    ensures r.outcome.LabelsRejected? <==> parse(LabelsText(inputs)).None?
    ensures r.outcome.LabelsRejected? ==> r.timer == timer
  {
    match parse(LabelsText(inputs))
    case None => Run(LabelsRejected, timer)
    case Some(parsed) =>
      var tracked := Track(parsed, inputs.measurement, clock.atMeasurement, timer);
      var request := BuildRequest(inputs, ctx, tracked.labels, clock);
      var outcome := match post(request)
        case Accepted(data) => Sent(request, data)
        case Threw(thrown) => PushFailed(request, FailureMessage(thrown));
      Run(outcome, tracked.timer)
  }

  /**
   * Labels that do not parse end the invocation before the measurement
   * step: nothing is posted, the slot is untouched and the action fails
   * with "Error parsing labels".
   */
  lemma RejectedLabelsStopEarly(
    inputs: Inputs, ctx: RunContext,
    parse: string -> Option<map<string, string>>, post: Request -> PostResult,
    clock: Clock, timer: Option<int>)
    requires parse(LabelsText(inputs)).None?
    ensures var r := Pipeline(inputs, ctx, parse, post, clock, timer);
      && r.outcome == LabelsRejected
      && r.timer == timer
      && ReportedFailure(r.outcome) == Some(LabelsErrorMessage)
  {
  }

  /**
   * When the labels parse, exactly one POST is made, to the push path
   * under the configured address with the defaulted tenant; the action
   * fails exactly when the POST throws, with the `Error`'s message or the
   * generic unknown-error message.
   */
  lemma ParsedLabelsArePushed(
    inputs: Inputs, ctx: RunContext,
    parse: string -> Option<map<string, string>>, post: Request -> PostResult,
    clock: Clock, timer: Option<int>)
    requires parse(LabelsText(inputs)).Some?
    ensures var r := Pipeline(inputs, ctx, parse, post, clock, timer);
      && !r.outcome.LabelsRejected?
      && r.outcome.request.url == inputs.lokiAddress + PushPath
      && r.outcome.request.tenant == EffectiveTenant(inputs.lokiTenant)
      && (post(r.outcome.request).Accepted? <==> ReportedFailure(r.outcome).None?)
      && (post(r.outcome.request) == Threw(OtherThrown) ==> ReportedFailure(r.outcome) == Some(UnknownErrorMessage))
      && (forall m :: post(r.outcome.request) == Threw(ErrorObject(m)) ==> ReportedFailure(r.outcome) == Some(m))
  {
  }

  /** When the labels parse, the request posted is built from the labels after the measurement step. */
  lemma PostedRequest(
    inputs: Inputs, ctx: RunContext,
    parse: string -> Option<map<string, string>>, post: Request -> PostResult,
    clock: Clock, timer: Option<int>)
    requires parse(LabelsText(inputs)).Some?
    ensures var tracked := Track(parse(LabelsText(inputs)).value, inputs.measurement, clock.atMeasurement, timer);
      Pipeline(inputs, ctx, parse, post, clock, timer).outcome.request == BuildRequest(inputs, ctx, tracked.labels, clock)
  {
  }

  /**
   * The stream labels of a run: every parsed label keeps its value unless
   * the measurement step overwrote its key, the measurement and duration
   * overlays are present, and the context fills every key left free.
   */
  lemma OverlaidStream(ctx: RunContext, parsed: map<string, string>, measurement: string, now: int, timer: Option<int>)
    ensures var overlay := OverlayKeys(measurement, timer);
      var stream := StreamLabels(ctx, Track(parsed, measurement, now, timer).labels);
      && stream.Keys == ContextKeys() + parsed.Keys + overlay
      && (forall k :: k in parsed && k !in overlay ==> stream[k] == parsed[k])
      && (measurement != "" ==> stream[MeasurementKey] == measurement)
      && (AddsDuration(measurement, timer) ==>
            stream[DurationKey] == Decimal.IntToDec(RoundedSeconds(now - timer.value)))
      && (forall k :: k in ContextKeys() && k !in parsed && k !in overlay ==> stream[k] == ContextLabels(ctx)[k])
  {
    var tracked := Track(parsed, measurement, now, timer);
    assert MeasurementKey !in ContextKeys() && DurationKey !in ContextKeys();
    forall k | k in ContextKeys() && k !in parsed && k !in OverlayKeys(measurement, timer)
      ensures k !in tracked.labels
    {
    }
  }

  /**
   * The posted body: one stream whose labels are those of `OverlaidStream`,
   * and one value pair carrying the message and the timestamp.
   */
  lemma PostedStream(
    inputs: Inputs, ctx: RunContext,
    parse: string -> Option<map<string, string>>, post: Request -> PostResult,
    clock: Clock, timer: Option<int>)
    requires parse(LabelsText(inputs)).Some?
    ensures var parsed := parse(LabelsText(inputs)).value;
      var body := Pipeline(inputs, ctx, parse, post, clock, timer).outcome.request.body;
      && |body.streams| == 1
      && body.streams[0].values == [LogValue(Timestamp(clock.atPayload), inputs.message)]
      && body.streams[0].stream == StreamLabels(ctx, Track(parsed, inputs.measurement, clock.atMeasurement, timer).labels)
  {
    PostedRequest(inputs, ctx, parse, post, clock, timer);
  }

  /**
   * The timer slot after an invocation: "start" with parsed labels stores
   * the clock reading, every other invocation leaves the slot as it was.
   */
  lemma TimerAfterRun(
    inputs: Inputs, ctx: RunContext,
    parse: string -> Option<map<string, string>>, post: Request -> PostResult,
    clock: Clock, timer: Option<int>)
    ensures var r := Pipeline(inputs, ctx, parse, post, clock, timer);
      r.timer == if parse(LabelsText(inputs)).Some? && inputs.measurement == StartMode
        then Some(clock.atMeasurement) else timer
  {
  }

  /** A "finish" with no stored start adds no `duration` key to the stream. */
  lemma NoDurationKeyWithoutStart(ctx: RunContext, parsed: map<string, string>, now: int)
    ensures DurationKey in StreamLabels(ctx, Track(parsed, FinishMode, now, None).labels) <==> DurationKey in parsed
  {
    var tracked := Track(parsed, FinishMode, now, None);
    assert OverlayKeys(FinishMode, None) == {MeasurementKey};
    assert DurationKey !in ContextKeys() && DurationKey != MeasurementKey;
  }

  /**
   * A "finish" with no stored start is not an error: the stream carries a
   * `duration` label only if the user supplied one, and the action
   * succeeds whenever the POST does.
   */
  lemma FinishWithoutStartSucceeds(
    inputs: Inputs, ctx: RunContext,
    parse: string -> Option<map<string, string>>, post: Request -> PostResult,
    clock: Clock)
    requires inputs.measurement == FinishMode
    requires parse(LabelsText(inputs)).Some?
    ensures var r := Pipeline(inputs, ctx, parse, post, clock, None);
      var parsed := parse(LabelsText(inputs)).value;
      && r.timer == None
      && (DurationKey in r.outcome.request.body.streams[0].stream <==> DurationKey in parsed)
      && (post(r.outcome.request).Accepted? ==> ReportedFailure(r.outcome).None?)
  {
    var parsed := parse(LabelsText(inputs)).value;
    var tracked := Track(parsed, FinishMode, clock.atMeasurement, None);
    var r := Pipeline(inputs, ctx, parse, post, clock, None);
    PostedRequest(inputs, ctx, parse, post, clock, None);
    assert r.outcome.request.body.streams[0].stream == StreamLabels(ctx, tracked.labels);
    NoDurationKeyWithoutStart(ctx, parsed, clock.atMeasurement);
  }

  /**
   * An example: message "hello", no measurement, labels {"a":"b"}
   * and no tenant post one line to the push path with tenant `fake`, label
   * `a` = `b` beside the context labels.
   */
  lemma HelloExample(
    address: string, ctx: RunContext,
    parse: string -> Option<map<string, string>>, post: Request -> PostResult,
    clock: Clock, timer: Option<int>)
    requires parse("{\"a\":\"b\"}") == Some(map["a" := "b"])
    ensures var inputs := Inputs("hello", "", address, "", "", "", "{\"a\":\"b\"}");
      var request := Pipeline(inputs, ctx, parse, post, clock, timer).outcome.request;
      var stream := request.body.streams[0].stream;
      && request.url == address + "/loki/api/v1/push"
      && request.tenant == "fake"
      && stream["a"] == "b"
      && stream["source"] == "github-actions"
      && request.body.streams[0].values == [LogValue(Timestamp(clock.atPayload), "hello")]
  {
    var inputs := Inputs("hello", "", address, "", "", "", "{\"a\":\"b\"}");
    PostedStream(inputs, ctx, parse, post, clock, timer);
    OverlaidStream(ctx, map["a" := "b"], "", clock.atMeasurement, timer);
  }

  /**
   * The invocation as the action runs it: the labels object and the tenant
   * are updated step by step and the persisted slot in `store` is
   * overwritten on "start".
   */
  method SendLog(
    inputs: Inputs, ctx: RunContext,
    parse: string -> Option<map<string, string>>, post: Request -> PostResult,
    clock: Clock, store: TimerStore)
    returns (outcome: Outcome)
    modifies store
    ensures Run(outcome, store.slot) == Pipeline(inputs, ctx, parse, post, clock, old(store.slot))
  {
    var labelsInput := LabelsText(inputs);
    var parsed := parse(labelsInput);
    if parsed.None? {
      outcome := LabelsRejected;
      return;
    }
    var labels := store.Measure(parsed.value, inputs.measurement, clock.atMeasurement);
    var lokiTenant := inputs.lokiTenant;
    if lokiTenant == "" {
      lokiTenant := DefaultTenant;
    }
    var logEntry := BuildPayload(inputs.message, labels, ctx, clock.atPayload);
    var request := Request(PushUrl(inputs.lokiAddress), lokiTenant, inputs.lokiUsername, inputs.lokiPassword, logEntry);
    match post(request) {
      case Accepted(data) =>
        outcome := Sent(request, data);
      case Threw(thrown) =>
        outcome := PushFailed(request, FailureMessage(thrown));
    }
  }
}
