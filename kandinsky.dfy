/** The Kandinsky (FusionBrain) client: list pipelines, submit one GENERATE job,
    poll its status a bounded number of times and decode the first finished image.
    The HTTP service is an oracle: its replies are inputs, the requests are a trace. */
module Kandinsky {
  import opened Base
  import opened Traces

  /** The poll budget and the pause between polls, in seconds. */
  const MaxPolls: nat := 30
  const PollInterval: nat := 2

  /** The `params` part of the run request. */
  datatype GenerateParams = GenerateParams(kind: string, numImages: nat, width: nat, height: nat, query: string)

  function ParamsFor(prompt: string): GenerateParams
  {
    GenerateParams("GENERATE", 1, 1024, 1024, prompt)
  }

  /** A request the client issues, in the order issued (a sleep counts as one). */
  datatype Call =
    | ListPipelines
    | RunPipeline(pipelineId: string, params: GenerateParams)
    | GetStatus(uuid: string)
    | Sleep(seconds: nat)

  /** The listing reply: unavailable (transport error or a body that is not a JSON
      list), or the listed pipeline objects, each with its "id" when it has one. */
  datatype PipelinesReply = PipelinesUnavailable | Pipelines(ids: seq<Option<string>>)

  /** The run reply: unavailable, or a JSON object with its "uuid" when it has one. */
  datatype RunReply = RunUnavailable | RunAccepted(uuid: Option<string>)

  /** A status reply: unavailable, or a JSON object with its "status" when it has one
      and the entries of "result"."files" (empty when missing). */
  datatype StatusReply = StatusUnavailable | Status(status: Option<string>, files: seq<string>)

  /** The service as seen by one call: the listing and run replies, the reply to the
      k-th status poll, and base64 decoding (None when it raises). */
  datatype Service = Service(
    pipelines: PipelinesReply,
    run: RunReply,
    status: nat -> StatusReply,
    decode: string -> Option<Bytes>)

  /** `[0]["id"]` of the listing, or None when evaluating it raises. */
  function PipelineId(reply: PipelinesReply): Option<string>
  {
    if reply.Pipelines? && |reply.ids| > 0 then reply.ids[0] else None
  }

  /** `["uuid"]` of the run reply, or None when evaluating it raises. */
  function JobId(reply: RunReply): Option<string>
  {
    if reply.RunAccepted? then reply.uuid else None
  }

  /** A reply after which the loop sleeps and polls again: a status other than "DONE".
      Every other reply ends the loop, by returning or by raising. */
  predicate Continues(r: StatusReply)
  {
    r.Status? && r.status.Some? && r.status.value != "DONE"
  }

  /** A "DONE" reply whose first file decodes. */
  predicate DoneWithImage(r: StatusReply, decode: string -> Option<Bytes>)
  {
    r.Status? && r.status == Some("DONE") && |r.files| > 0 && decode(r.files[0]).Some?
  }

  /** The index of the first poll, from `k` on, that ends the loop; MaxPolls if none does. */
  function StopIndex(status: nat -> StatusReply, k: nat): (n: nat)
    requires k <= MaxPolls
    decreases MaxPolls - k
    ensures k <= n <= MaxPolls
    ensures forall j :: k <= j < n ==> Continues(status(j))
    ensures n < MaxPolls ==> !Continues(status(n))
  {
    if k == MaxPolls || !Continues(status(k)) then k else StopIndex(status, k + 1)
  }

  /** How the poll loop ends: with decoded bytes, with an exception, or with the budget spent. */
  datatype PollOutcome = Decoded(image: Bytes) | Raised | Exhausted

  /** The outcome of the reply that ends the loop. */
  function Settle(r: StatusReply, decode: string -> Option<Bytes>): PollOutcome
  {
    if DoneWithImage(r, decode) then Decoded(decode(r.files[0]).value) else Raised
  }

  function PollOutcomeOf(status: nat -> StatusReply, decode: string -> Option<Bytes>): PollOutcome
  {
    var n := StopIndex(status, 0);
    if n < MaxPolls then Settle(status(n), decode) else Exhausted
  }

  /** The requests of a loop that ends at poll `n`: a poll and a sleep for each
      continuing reply, then the final poll (none once the budget is spent). */
  function PollTrace(uuid: string, n: nat): seq<Call>
  {
    Repeat([GetStatus(uuid), Sleep(PollInterval)], n) + (if n < MaxPolls then [GetStatus(uuid)] else [])
  }

  /** A poll that ends the loop after only continuing ones is where it stops. */
  lemma StopsAt(status: nat -> StatusReply, i: nat)
    requires i < MaxPolls
    requires forall j :: 0 <= j < i ==> Continues(status(j))
    requires !Continues(status(i))
    ensures StopIndex(status, 0) == i
  {
  }

  /** The `for _ in range(30)` loop of generate_kandinsky. */
  method PollStatus(uuid: string, status: nat -> StatusReply, decode: string -> Option<Bytes>)
    returns (outcome: PollOutcome, calls: seq<Call>)
    ensures outcome == PollOutcomeOf(status, decode)
    ensures calls == PollTrace(uuid, StopIndex(status, 0))
  {
    calls := [];
    var i := 0;
    while i < MaxPolls
      invariant 0 <= i <= MaxPolls
      invariant forall j :: 0 <= j < i ==> Continues(status(j))
      invariant calls == Repeat([GetStatus(uuid), Sleep(PollInterval)], i)
    {
      var reply := status(i);
      calls := calls + [GetStatus(uuid)];
      if !Continues(reply) {
        StopsAt(status, i);
        outcome := SettleReply(reply, decode);
        return;
      }
      calls := calls + [Sleep(PollInterval)];
      i := i + 1;
    }
    outcome := Exhausted;
  }

  /** The reply that ends the loop, taken apart as generate_kandinsky does: a transport
      error, a missing "status", a "DONE" without files or an undecodable file raise. */
  method SettleReply(reply: StatusReply, decode: string -> Option<Bytes>) returns (outcome: PollOutcome)
    requires !Continues(reply)
    ensures outcome == Settle(reply, decode)
    ensures outcome != Exhausted
  {
    match reply
    case StatusUnavailable =>
      outcome := Raised;
    case Status(s, files) =>
      if s.None? || |files| == 0 {
        outcome := Raised;
      } else {
        var bytes := decode(files[0]);
        outcome := if bytes.Some? then Decoded(bytes.value) else Raised;
      }
  }

  /** What generate_kandinsky returns and the requests it issues. Every exception
      (at the listing, the submission, a poll or the decoding) yields None. */
  function KandinskyRun(prompt: string, service: Service): (Option<Bytes>, seq<Call>)
  {
    match PipelineId(service.pipelines)
    case None => (None, [ListPipelines])
    case Some(pipeline) =>
      var submitted := [ListPipelines, RunPipeline(pipeline, ParamsFor(prompt))];
      match JobId(service.run)
      case None => (None, submitted)
      case Some(uuid) =>
        var outcome := PollOutcomeOf(service.status, service.decode);
        (if outcome.Decoded? then Some(outcome.image) else None,
         submitted + PollTrace(uuid, StopIndex(service.status, 0)))
  }

  method GenerateKandinsky(prompt: string, service: Service) returns (img: Option<Bytes>, calls: seq<Call>)
    ensures (img, calls) == KandinskyRun(prompt, service)
  {
    calls := [ListPipelines];
    var pipeline := PipelineId(service.pipelines);
    if pipeline.None? {
      return None, calls;
    }
    calls := [ListPipelines, RunPipeline(pipeline.value, ParamsFor(prompt))];
    var uuid := JobId(service.run);
    if uuid.None? {
      return None, calls;
    }
    var outcome, polls := PollStatus(uuid.value, service.status, service.decode);
    calls := calls + polls;
    img := if outcome.Decoded? then Some(outcome.image) else None;
  }

  // ---------- properties ----------

  /** The listing and the run request reached the service and were answered usably. */
  predicate Submitted(service: Service)
  {
    PipelineId(service.pipelines).Some? && JobId(service.run).Some?
  }

  lemma {:induction false} PollTraceCounts(uuid: string, n: nat)
    requires n <= MaxPolls
    ensures Count(PollTrace(uuid, n), GetStatus(uuid)) == (if n < MaxPolls then n + 1 else MaxPolls)
    ensures Count(PollTrace(uuid, n), Sleep(PollInterval)) == n
    ensures forall c :: c in PollTrace(uuid, n) ==> c == GetStatus(uuid) || c == Sleep(PollInterval)
  {
    var block := [GetStatus(uuid), Sleep(PollInterval)];
    var tail: seq<Call> := if n < MaxPolls then [GetStatus(uuid)] else [];
    CountPair(GetStatus(uuid), Sleep(PollInterval));
    CountRepeat(block, n, GetStatus(uuid));
    CountRepeat(block, n, Sleep(PollInterval));
    CountConcat(Repeat(block, n), tail, GetStatus(uuid));
    CountConcat(Repeat(block, n), tail, Sleep(PollInterval));
    assert n < MaxPolls ==> tail == [GetStatus(uuid)] && [GetStatus(uuid)][..0] == [];
    forall c | c in PollTrace(uuid, n)
      ensures c == GetStatus(uuid) || c == Sleep(PollInterval)
    {
      if c in Repeat(block, n) {
        RepeatMembers(block, n, c);
      }
    }
  }

  /** Counts of a request in a trace that starts with the listing and the run request. */
  lemma SubmittedCounts(pipeline: string, prompt: string, uuid: string, n: nat, c: Call)
    requires n <= MaxPolls
    requires c.GetStatus? || c.Sleep?
    ensures Count([ListPipelines, RunPipeline(pipeline, ParamsFor(prompt))] + PollTrace(uuid, n), c)
         == Count(PollTrace(uuid, n), c)
  {
    var submitted := [ListPipelines, RunPipeline(pipeline, ParamsFor(prompt))];
    CountConcat(submitted, PollTrace(uuid, n), c);
    assert c !in submitted;
  }

  /** At most thirty status requests, whatever the service answers. */
  lemma AtMostThirtyPolls(prompt: string, service: Service, uuid: string)
    ensures Count(KandinskyRun(prompt, service).1, GetStatus(uuid)) <= MaxPolls
  {
    var calls := KandinskyRun(prompt, service).1;
    if Submitted(service) {
      var n := StopIndex(service.status, 0);
      var job := JobId(service.run).value;
      SubmittedCounts(PipelineId(service.pipelines).value, prompt, job, n, GetStatus(uuid));
      PollTraceCounts(job, n);
      if uuid != job {
        assert GetStatus(uuid) !in PollTrace(job, n);
      }
    } else {
      assert GetStatus(uuid) !in calls;
    }
  }

  /** If poll k (counting from 0) is the first "DONE" and its file decodes, the result
      is that image, after exactly k + 1 polls and k sleeps, the last request being that poll. */
  lemma FirstDoneWins(prompt: string, service: Service, k: nat)
    requires Submitted(service)
    requires k < MaxPolls
    requires forall j :: 0 <= j < k ==> Continues(service.status(j))
    requires DoneWithImage(service.status(k), service.decode)
    ensures var uuid := JobId(service.run).value;
            var (img, calls) := KandinskyRun(prompt, service);
            && img == service.decode(service.status(k).files[0])
            && Count(calls, GetStatus(uuid)) == k + 1
            && Count(calls, Sleep(PollInterval)) == k
            && calls[|calls| - 1] == GetStatus(uuid)
  {
    var uuid := JobId(service.run).value;
    assert StopIndex(service.status, 0) == k;
    PollTraceCounts(uuid, k);
    SubmittedCounts(PipelineId(service.pipelines).value, prompt, uuid, k, GetStatus(uuid));
    SubmittedCounts(PipelineId(service.pipelines).value, prompt, uuid, k, Sleep(PollInterval));
  }

  /** If no poll of the thirty ends the loop, the result is None after thirty polls and
      thirty sleeps, and no thirty-first poll is issued. */
  lemma NeverDoneTimesOut(prompt: string, service: Service)
    requires Submitted(service)
    requires forall j :: 0 <= j < MaxPolls ==> Continues(service.status(j))
    ensures var uuid := JobId(service.run).value;
            var (img, calls) := KandinskyRun(prompt, service);
            && img == None
            && Count(calls, GetStatus(uuid)) == MaxPolls
            && Count(calls, Sleep(PollInterval)) == MaxPolls
  {
    var uuid := JobId(service.run).value;
    assert StopIndex(service.status, 0) == MaxPolls;
    PollTraceCounts(uuid, MaxPolls);
    SubmittedCounts(PipelineId(service.pipelines).value, prompt, uuid, MaxPolls, GetStatus(uuid));
    SubmittedCounts(PipelineId(service.pipelines).value, prompt, uuid, MaxPolls, Sleep(PollInterval));
  }

  /** A "FAILED" status does not end the loop: after k + 1 FAILED replies another
      poll follows, unless the budget is spent. */
  lemma FailedKeepsPolling(prompt: string, service: Service, k: nat)
    requires Submitted(service)
    requires k < MaxPolls
    requires forall j :: 0 <= j <= k ==> service.status(j).Status? && service.status(j).status == Some("FAILED")
    ensures var uuid := JobId(service.run).value;
            Count(KandinskyRun(prompt, service).1, GetStatus(uuid)) >= (if k + 1 < MaxPolls then k + 2 else MaxPolls)
  {
    var uuid := JobId(service.run).value;
    var n := StopIndex(service.status, 0);
    assert Continues(service.status(k));
    assert n > k;
    PollTraceCounts(uuid, n);
    SubmittedCounts(PipelineId(service.pipelines).value, prompt, uuid, n, GetStatus(uuid));
  }

  /** generate_kandinsky yields an image exactly when the job was submitted and some poll
      within the budget is a decodable "DONE" preceded only by non-"DONE" statuses;
      every failure, exceptions included, yields None. */
  lemma ImageIffDoneWithinBudget(prompt: string, service: Service)
    ensures KandinskyRun(prompt, service).0.Some? <==>
      Submitted(service) &&
      exists k :: 0 <= k < MaxPolls && (forall j :: 0 <= j < k ==> Continues(service.status(j))) &&
        DoneWithImage(service.status(k), service.decode)
  {
    if Submitted(service) {
      var n := StopIndex(service.status, 0);
      if KandinskyRun(prompt, service).0.Some? {
        assert n < MaxPolls && DoneWithImage(service.status(n), service.decode);
      }
      forall k | 0 <= k < MaxPolls && (forall j :: 0 <= j < k ==> Continues(service.status(j))) &&
        DoneWithImage(service.status(k), service.decode)
        ensures KandinskyRun(prompt, service).0.Some?
      {
        assert n == k;
      }
    }
  }

  /** A failed listing stops the call before any submission or poll; a failed submission
      stops it before any poll. */
  lemma EarlyFailuresIssueNoPoll(prompt: string, service: Service)
    requires !Submitted(service)
    ensures KandinskyRun(prompt, service).0 == None
    ensures forall c :: c in KandinskyRun(prompt, service).1 ==> !c.GetStatus? && !c.Sleep?
    ensures PipelineId(service.pipelines).None? ==> KandinskyRun(prompt, service).1 == [ListPipelines]
  {
  }

  /** The one submitted job always asks for one 1024x1024 GENERATE image of the prompt,
      on the first listed pipeline. */
  lemma SubmittedParams(prompt: string, service: Service, c: Call)
    requires c in KandinskyRun(prompt, service).1 && c.RunPipeline?
    ensures c.params.kind == "GENERATE" && c.params.numImages == 1
    ensures c.params.width == 1024 && c.params.height == 1024
    ensures c.params.query == prompt
    ensures PipelineId(service.pipelines) == Some(c.pipelineId)
  {
    if Submitted(service) {
      PollTraceCounts(JobId(service.run).value, StopIndex(service.status, 0));
    }
  }
}
