# send-log-to-loki, modelled in Dafny

The action sends one log line from a GitHub Actions job to a Loki push
endpoint. It can also measure how long a job step took. An invocation with
measurement mode `start` stores the current time in a file in the
workspace. A later invocation with mode `finish` reads that time back and
adds a `duration` label of whole seconds.

This project models the logic of `sendLog` in `src/index.ts`:

- **Decimal** (`decimal.dfy`): how JavaScript writes a whole number as text
  (`toString()`, template literals), and the value such text parses back to.
- **Measurement** (`measurement.dfy`): the label overlay and the timer state
  machine.
  - `Track` is the specification function.
  - `TimerStore` is a class holding the persisted slot (`Option<int>`). Its
    `Measure` method updates the labels and the slot step by step, as the
    source does.
  - `Math.round(ms / 1000)` is computed exactly as `(ms + 500) / 1000` with
    floor division. Its contract says this is the nearest whole second,
    with ties rounding up.
- **Payload** (`payload.dfy`): the run-context labels, the user labels spread
  over them, the run URL, and the timestamp. The timestamp is the
  millisecond reading followed by `000000`, and its value is proved to be
  ms × 10⁶.
- **Push** (`push.dfy`): the push URL, the `fake` tenant default, and the
  mapping from a thrown error to the failure message.
- **SendLog** (`send_log.dfy`): the whole invocation.
  - `Pipeline` is a pure function. Its outcome is one of `LabelsRejected`,
    `Sent(request, data)` or `PushFailed(request, message)`, and it also
    returns the timer slot left for the next run.
  - The `SendLog` method performs the same steps imperatively against a
    `TimerStore` and is proved equal to `Pipeline`.
  - `JSON.parse` is a parameter `parse`, and the HTTP POST is a parameter
    `post`. `Date.now()` is read twice in the source (lines 36/41 and line
    78), so the model takes two clock readings, `Clock(atMeasurement,
    atPayload)`.

Behaviour of the code worth noting:
- Any non-empty measurement value becomes a `measurement` label, not only
  `start` and `finish` (src/index.ts:31-33).
- Labels are rejected only when `JSON.parse` throws. Text that is valid JSON
  but not a flat object is not rejected (src/index.ts:22-29).
- The tenant header is `fake` when the tenant input is empty, and also when
  the input is literally `fake` (`Push.EffectiveTenantIsFake`).

## Model

| member | source | states |
|---|---|---|
| Decimal.NatToDec | src/index.ts:36 | the text of a number is a non-empty run of digits, with a leading `0` only for zero |
| Decimal.IntToDec | src/index.ts:36 | the text of an integer is non-empty and starts with `-` exactly when the integer is negative; `IntToDecRoundTrip` shows it reads back as the integer (the same rendering serves lines 44, 61 and 78) |
| Decimal.DecToInt | src/index.ts:40 | text is read exactly when it is a run of digits, optionally after a minus sign; a run of digits reads as its digit value; `-` followed by digits reads as the negated digit value; a negative reading comes from text with a leading `-` |
| Decimal.NatToDecValue | src/index.ts:36-40 | the digits written for `n` read back as `n` |
| Decimal.IntToDecRoundTrip | src/index.ts:36-40 | the start time written to the timer file as text parses back to the same integer, so an integer slot is a faithful model of the file |
| Decimal.IntToDecInjective | src/index.ts:44 | two durations have the same label text exactly when they are equal |
| Decimal.DigitsValueAppend | src/index.ts:78 | appending digits to a numeral multiplies its value by a power of ten and adds the appended digits' value |
| Decimal.NatToDecShift | src/index.ts:78 | appending k zeros to the text of a positive n gives the text of n·10^k |
| Measurement.RoundedSeconds | src/index.ts:42 | the rounded duration r satisfies 1000r − 500 ≤ elapsed < 1000r + 500: the nearest second, with ties going up, as `Math.round` does |
| Measurement.RoundedSecondsUnique | src/index.ts:42 | no other whole number satisfies that bound |
| Measurement.Track | src/index.ts:31-45 | label keys become the parsed keys plus `measurement` (mode non-empty) plus `duration` (finish with a stored start); other entries are unchanged; `measurement` holds the mode; `duration` is the decimal text of the rounded elapsed seconds; the slot becomes `Some(now)` on start and is otherwise unchanged |
| Measurement.DurationLabelValue | src/index.ts:39-44 | the `duration` label parses back to round((now − start)/1000) |
| Measurement.StartThenFinish | src/index.ts:35-45 | after a start at t0, a finish at t1 carries duration round((t1 − t0)/1000), and the slot still holds t0 |
| Measurement.LastStartWins | src/index.ts:35-38 | a second start overwrites the first |
| Measurement.FinishKeepsStart | src/index.ts:39-45 | finish does not clear the slot, so a second finish measures from the same start |
| Measurement.NoDurationWithoutTimer | src/index.ts:35-45 | in any mode other than finish-with-a-stored-start, `duration` is present and valued exactly as in the parsed labels |
| Measurement.TimerStore.Measure | src/index.ts:31-45 | the returned labels and the new slot are exactly those given by `Track` on the old slot |
| Measurement.StartAndFinish | src/index.ts:35-44 | two invocations sharing one store, start at t0 then finish at t1, produce a duration label reading round((t1 − t0)/1000) |
| Payload.RunUrl | src/index.ts:61 | the run URL is, position by position, `https://github.com/`, the owner, `/`, the repository, `/actions/runs/` and the run id's text |
| Payload.ContextLabels | src/index.ts:66-75 | the context contributes exactly the nine keys: `source` = `github-actions`, and the owner, repository, workflow, job, run id, run number, actor and run URL each at its own key |
| Payload.StreamLabels | src/index.ts:66-77 | the stream's keys are the context keys plus the user keys; every user label keeps its value; a context label survives exactly where no user label has its key |
| Decimal.ZerosValue | src/index.ts:78 | a run of zeros has digit value 0 (the value of the appended part in `DigitsValueAppend`), so the timestamp's value is the millisecond value times 10⁶ |
| Payload.Timestamp | src/index.ts:78 | the timestamp is the text of the millisecond reading followed by exactly six `0` characters |
| Payload.TimestampValue | src/index.ts:78 | the timestamp text parses to ms × 10⁶ for every millisecond reading |
| Payload.TimestampCanonical | src/index.ts:78 | for a non-zero reading, the timestamp is the canonical text of ms × 10⁶ |
| Payload.BuildPayload | src/index.ts:63-81 | one stream with exactly one value pair (`Timestamp(ms)`, message): the message unchanged, and the timestamp the millisecond text followed by six zeros, worth ms × 10⁶; the stream labels merged as in `StreamLabels` |
| Push.EffectiveTenant | src/index.ts:47-52 | the tenant is never empty, equals the input when the input is non-empty, and is `fake` otherwise |
| Push.EffectiveTenantIsFake | src/index.ts:47-52 | the tenant is `fake` exactly when the input is empty or `fake` |
| Push.EffectiveTenantIdempotent | src/index.ts:47-52 | defaulting twice equals defaulting once |
| Push.PushUrl | src/index.ts:85 | the push URL is the address followed by `/loki/api/v1/push` |
| Push.FailureMessage | src/index.ts:93-100 | a thrown `Error` yields its own message; anything else yields `An unknown error occurred` |
| SendLog.LabelsText | src/index.ts:14 | the parser is never given empty text: an empty labels input becomes `{}` |
| SendLog.ReportedFailure | src/index.ts:24-100 | the action fails exactly when the outcome is not `Sent`; rejected labels report `Error parsing labels`; a push failure reports its message |
| SendLog.Pipeline | src/index.ts:20-101 | the outcome is `LabelsRejected` exactly when parsing fails, and the slot is then unchanged |
| SendLog.RejectedLabelsStopEarly | src/index.ts:22-29 | unparsable labels mean no request, an untouched slot and the failure `Error parsing labels` |
| SendLog.ParsedLabelsArePushed | src/index.ts:83-101 | parsed labels lead to one request to address + `/loki/api/v1/push` with the defaulted tenant; the run fails exactly when the POST throws, with the `Error` message or the unknown-error message; nothing is retried |
| SendLog.BuildRequest | src/index.ts:84-91 | the request goes to the address followed by `/loki/api/v1/push`, with a non-empty tenant that is the input or `fake` when the input is empty, the configured username and password, and a body of one stream labelled by `StreamLabels` carrying the single pair (`Timestamp`, message) |
| SendLog.NoDurationKeyWithoutStart | src/index.ts:39-45 | after a finish with no stored start, the stream has a `duration` key exactly when the parsed labels had one |
| SendLog.OverlaidStream | src/index.ts:31-77 | the stream keys are the context keys, the parsed keys and the overlay keys; parsed labels survive unless overlaid; the overlays carry the mode and the duration; context values fill every other key |
| SendLog.PostedStream | src/index.ts:63-81 | the body has one stream, whose single value pair is the timestamp and the message, and whose labels are the context with the measured labels spread over it |
| SendLog.TimerAfterRun | src/index.ts:22-45 | the slot becomes the clock reading exactly when the labels parse and the mode is `start`; otherwise it is unchanged |
| SendLog.FinishWithoutStartSucceeds | src/index.ts:39-92 | a finish with no stored start leaves the slot empty, adds no `duration` beyond one the user supplied, and succeeds whenever the POST does |
| SendLog.HelloExample | src/index.ts:63-91 | message `hello`, no measurement, labels `{"a":"b"}` and no tenant post to the push path with tenant `fake`, label `a` = `b`, `source` = `github-actions`, and the single value pair (timestamp, `hello`) |
| SendLog.SendLog | src/index.ts:20-101 | the imperative invocation returns the outcome, and leaves the slot, exactly as `Pipeline` gives them for the slot it started with |

## Left out

- Reading inputs (`core.getInput`), the workspace path and `core.setFailed` (src/index.ts:8-18, 26, 96, 99) are the action environment. Inputs are an `Inputs` record, and the failure reported is `ReportedFailure`.
- `github.context` (src/index.ts:54-61) is a foreign library, so the context is a `RunContext` record. `runId` and `runNumber` are JSON numbers in the posted body; the model stores their decimal text as the label value.
- The timer file (`writeFileSync`, `existsSync`, `readFileSync`, src/index.ts:38-40) is an `Option<int>` slot. `Decimal.IntToDecRoundTrip` shows that the text written at start parses back to the same number. The file calls are assumed to succeed. If `writeFileSync` (line 38) or `existsSync`/`readFileSync` (lines 39-40) throws, `sendLog` stops before the POST, outside both `try` blocks. The result is an unhandled rejection, not `core.setFailed`, and the model has no outcome for it. So "the run fails exactly when the POST throws" (`SendLog.ParsedLabelsArePushed`) holds only when the file calls succeed.
- Decimal.DecToInt: reads only text made of an optional `-` and digits. `parseInt`'s leniency on other text (leading whitespace, a `+` sign, trailing characters, `NaN` and the resulting `NaN` duration) is not modelled. The timer file only ever holds text the action wrote itself (`Decimal.IntToDecRoundTrip`).
- `JSON.parse` (src/index.ts:23) is the parameter `parse`. Valid JSON that is not an object of strings (`null`, arrays, numbers as values) is not modelled, because labels are `map<string, string>`.
- The HTTP POST, the `Content-Type` header, Basic authentication and the JSON serialisation of the body (src/index.ts:84-91) are network I/O, so `post` is a parameter. The request carries the URL, tenant, credentials and payload. The JSON encode/decode round trip of the body is therefore not stated.
- `Date.now()` is replaced by the two `Clock` readings. The floating-point division and `Math.round` are replaced by the exact integer formula.
- Console logging, the top-level `sendLog()` call, and races between concurrent invocations on the timer file (src/index.ts:92, 95, 98, 104) are logging and concurrency.
- Payload.TimestampCanonical: for a reading of exactly 0 ms the text is `0000000` rather than the canonical `0`. Only its numeric value (`Payload.TimestampValue`) is stated for that case.
