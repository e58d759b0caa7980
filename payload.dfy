/**
 * The push-API record: one stream whose labels are the run context with the
 * user labels spread over it, carrying exactly one [timestamp, line] pair.
 */
module Payload {
  import opened Wrappers
  import opened Decimal

  /** The workflow-run context the action decorates the stream with. */
  datatype RunContext = RunContext(
    owner: string,
    repo: string,
    workflow: string,
    job: string,
    runId: nat,
    runNumber: nat,
    actor: string)

  datatype LogValue = LogValue(timestamp: string, line: string)

  datatype Stream = Stream(stream: map<string, string>, values: seq<LogValue>)

  datatype LogPushPayload = LogPushPayload(streams: seq<Stream>)

  const Source: string := "github-actions"
  const GitHubPrefix: string := "https://github.com/"
  const RunsPath: string := "/actions/runs/"

  /** The keys the run context contributes. */
  function ContextKeys(): set<string> {
    {"source", "repositoryOwner", "repositoryName", "workflow", "job", "runId", "runNumber", "actor", "url"}
  }

  /** The page of the workflow run on GitHub: prefix, owner, `/`, repository, runs path, run id. */
  function RunUrl(ctx: RunContext): (u: string)
    ensures var o := |GitHubPrefix|;
      var r := o + |ctx.owner| + 1;
      var p := r + |ctx.repo|;
      var i := p + |RunsPath|;
      && |u| == i + |IntToDec(ctx.runId)|
      && u[..o] == GitHubPrefix
      && u[o..r - 1] == ctx.owner
      && u[r - 1] == '/'
      && u[r..p] == ctx.repo
      && u[p..i] == RunsPath
      && u[i..] == IntToDec(ctx.runId)
  {
    GitHubPrefix + ctx.owner + "/" + ctx.repo + RunsPath + IntToDec(ctx.runId)
  }

  /** The stream labels derived from the run context alone. */
  function ContextLabels(ctx: RunContext): (m: map<string, string>)
    ensures m.Keys == ContextKeys()
    ensures m["source"] == Source && m["url"] == RunUrl(ctx)
    ensures m["repositoryOwner"] == ctx.owner && m["repositoryName"] == ctx.repo
    ensures m["workflow"] == ctx.workflow && m["job"] == ctx.job && m["actor"] == ctx.actor
    ensures m["runId"] == IntToDec(ctx.runId) && m["runNumber"] == IntToDec(ctx.runNumber)
  {
    map[
      "source" := Source,
      "repositoryOwner" := ctx.owner,
      "repositoryName" := ctx.repo,
      "workflow" := ctx.workflow,
      "job" := ctx.job,
      "runId" := IntToDec(ctx.runId),
      "runNumber" := IntToDec(ctx.runNumber),
      "actor" := ctx.actor,
      "url" := RunUrl(ctx)]
  }

  /**
   * The context labels with `labels` spread over them: every user label
   * keeps its value, and a context label survives exactly where no user
   * label has its key.
   */
  function StreamLabels(ctx: RunContext, labels: map<string, string>): (m: map<string, string>)
    ensures m.Keys == ContextKeys() + labels.Keys
    ensures forall k :: k in labels ==> m[k] == labels[k]
    ensures forall k :: k in ContextKeys() && k !in labels ==> m[k] == ContextLabels(ctx)[k]
  {
    ContextLabels(ctx) + labels
  }

  /** Epoch milliseconds followed by six zeros, read by the backend as nanoseconds. */
  function Timestamp(ms: int): (t: string)
    ensures |t| == |IntToDec(ms)| + 6
    ensures t[..|t| - 6] == IntToDec(ms)
    ensures forall i :: |t| - 6 <= i < |t| ==> t[i] == '0'
  {
    IntToDec(ms) + Zeros(6)
  }

  /** The timestamp's numeric value is the millisecond reading times 10^6, for every reading. */
  lemma TimestampValue(ms: int)
    ensures DecToInt(Timestamp(ms)) == Some(ms * 1000000)
  {
    var digits := NatToDec(if ms < 0 then -ms else ms);
    DigitsValueAppend(digits, Zeros(6));
    NatToDecValue(if ms < 0 then -ms else ms);
    assert DigitsValue(Zeros(6)) == 0 by { ZerosValue(6); }
    if ms < 0 {
      assert Timestamp(ms)[1..] == digits + Zeros(6);
    } else {
      assert Timestamp(ms) == digits + Zeros(6);
    }
  }

  /**
   * For a non-zero reading, the timestamp is the canonical text of
   * ms * 10^6; for zero it is "0000000", whose value is still 0.
   */
  lemma TimestampCanonical(ms: int)
    requires ms != 0
    ensures Timestamp(ms) == IntToDec(ms * 1000000)
  {
    var n := if ms < 0 then -ms else ms;
    NatToDecShift(n, 6);
    assert Pow10(6) == 1000000;
    if ms < 0 {
      assert -(ms * 1000000) == n * 1000000;
    }
  }

  /** The whole request body for one log line. */
  function BuildPayload(message: string, labels: map<string, string>, ctx: RunContext, nowMs: int): (p: LogPushPayload)
    ensures |p.streams| == 1 && |p.streams[0].values| == 1
    ensures p.streams[0].values == [LogValue(Timestamp(nowMs), message)]
    ensures p.streams[0].values[0].line == message
    ensures DecToInt(p.streams[0].values[0].timestamp) == Some(nowMs * 1000000)
    ensures p.streams[0].stream.Keys == ContextKeys() + labels.Keys
    ensures forall k :: k in labels ==> p.streams[0].stream[k] == labels[k]
    ensures forall k :: k in ContextKeys() && k !in labels ==> p.streams[0].stream[k] == ContextLabels(ctx)[k]
  {
    TimestampValue(nowMs);
    LogPushPayload([Stream(StreamLabels(ctx, labels), [LogValue(Timestamp(nowMs), message)])])
  }
}
