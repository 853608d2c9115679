/** The video-generation API client (internal/client/qiniu_video_client.go):
    the response shape, the request `GenerateVideo` builds, and the
    completion poll loop `WaitForCompletion`.

    The HTTP exchanges themselves are outside the model. The poll loop is a
    fold over the events its `select` observes: a cancellation of the
    context, or a ticker tick at some clock reading together with what the
    status query sent at that tick returned. */
module QiniuClient {
  import opened Wrappers
  import Text

  datatype VideoItem = VideoItem(url: string, mimeType: string)

  datatype VideoData = VideoData(raiMediaFilteredCount: int, videos: seq<VideoItem>)

  datatype Response = Response(id: string, model: string, status: string, message: string, data: Option<VideoData>)

  datatype Instance = Instance(prompt: string)

  datatype Parameters = Parameters(generateAudio: bool, durationSeconds: int, sampleCount: int)

  datatype Request = Request(instances: seq<Instance>, parameters: Parameters, model: string)

  /** The first video's URL when the response carries any video, else "". */
  function GetVideoURL(r: Response): (url: string)
    ensures r.data.Some? && |r.data.value.videos| > 0 ==> url == r.data.value.videos[0].url
    ensures r.data.None? || |r.data.value.videos| == 0 ==> url == ""
  {
    if r.data.Some? && |r.data.value.videos| > 0 then r.data.value.videos[0].url else ""
  }

  /** The body `GenerateVideo` posts: one instance carrying the prompt, audio
      on, one sample of the requested length, the client's model. */
  function BuildRequest(prompt: string, duration: int, model: string): (req: Request)
    ensures |req.instances| == 1 && req.instances[0].prompt == prompt
    ensures req.parameters.generateAudio && req.parameters.sampleCount == 1
    ensures req.parameters.durationSeconds == duration
    ensures req.model == model
  {
    Request([Instance(prompt)], Parameters(true, duration, 1), model)
  }

  /** The status words the loop recognises; matching is exact. */
  const SuccessStatuses: set<string> := {"Completed", "completed", "success"}
  const FailureStatuses: set<string> := {"Failed", "failed", "error"}

  datatype StatusClass = Succeeded | Failed | Running

  function Classify(status: string): (c: StatusClass)
    ensures c == Succeeded <==> status in SuccessStatuses
    ensures c == Failed <==> status in FailureStatuses
  {
    if status == "Completed" || status == "completed" || status == "success" then Succeeded
    else if status == "Failed" || status == "failed" || status == "error" then Failed
    else Running
  }

  /** Matching ignores no case: other spellings keep the loop polling. */
  lemma ClassifyIsCaseSensitive()
    ensures Classify("COMPLETED") == Running && Classify("Success") == Running
    ensures Classify("FAILED") == Running && Classify("Error") == Running
    ensures Classify("Queued") == Running
  {
  }

  /** What the loop's `select` observes next. */
  datatype Event = Cancel(ctxErr: string) | Tick(at: nat, reply: Outcome<Response>)

  /** The state of a poll: ticks counted, the clock readings at which a
      status query was sent, whether the loop has returned, and whether it
      returned because the deadline passed. */
  datatype Watch = Watch(checks: nat, queriedAt: seq<nat>, outcome: Pending<Response>, timedOut: bool)

  const ErrNoURL := "video generation completed but no video URL found"

  function TimeoutMessage(checks: nat): string {
    "timeout waiting for video generation after " + Text.NatToDecimal(checks) + " checks"
  }

  function FailureMessage(providerMessage: string): string {
    "video generation failed: " + (if providerMessage == "" then "unknown error" else providerMessage)
  }

  predicate NoCancel(events: seq<Event>) {
    forall i :: 0 <= i < |events| ==> events[i].Tick?
  }

  /** The loop has returned because the deadline passed. */
  predicate TimedOut(w: Watch) {
    w.timedOut
  }

  /** The poll loop from a given state. Each tick first counts itself, then
      compares the clock with the deadline, and only before the deadline
      sends a query. A failed query is ignored; a recognised status ends the
      loop. */
  function Poll(events: seq<Event>, deadline: nat, checks: nat, queriedAt: seq<nat>): (w: Watch)
    requires forall i :: 0 <= i < |queriedAt| ==> queriedAt[i] <= deadline
    ensures checks <= w.checks <= checks + |events|
    ensures queriedAt <= w.queriedAt
    ensures forall i :: 0 <= i < |w.queriedAt| ==> w.queriedAt[i] <= deadline
    ensures |w.queriedAt| - |queriedAt| == if TimedOut(w) then w.checks - checks - 1 else w.checks - checks
    ensures TimedOut(w) ==> w.outcome == Finished(Err(TimeoutMessage(w.checks)))
    ensures w.outcome == Waiting ==> w.checks == checks + |events| && NoCancel(events)
    ensures w.outcome.Finished? && w.outcome.outcome.Ok? ==>
              Classify(w.outcome.outcome.value.status) == Succeeded && GetVideoURL(w.outcome.outcome.value) != ""
    decreases |events|
  {
    if |events| == 0 then Watch(checks, queriedAt, Waiting, false)
    else match events[0]
      case Cancel(e) => Watch(checks, queriedAt, Finished(Err(e)), false)
      case Tick(at, reply) =>
        var count := checks + 1;
        if at > deadline then
          Watch(count, queriedAt, Finished(Err(TimeoutMessage(count))), true)
        else
          var sent := queriedAt + [at];
          match reply
          case Err(_) =>
            Poll(events[1..], deadline, count, sent)
          case Ok(resp) =>
            match Classify(resp.status)
            case Succeeded =>
              if GetVideoURL(resp) == "" then Watch(count, sent, Finished(Err(ErrNoURL)), false)
              else Watch(count, sent, Finished(Ok(resp)), false)
            case Failed =>
              Watch(count, sent, Finished(Err(FailureMessage(resp.message))), false)
            case Running =>
              Poll(events[1..], deadline, count, sent)
  }

  /** Waits for the remote job, giving up once a tick finds the clock past
      `start + maxWait`. No query is ever sent after the deadline, and a
      timeout reports a count that includes the tick that found it. */
  function WaitForCompletion(events: seq<Event>, start: nat, maxWait: nat): (w: Watch)
    ensures w.checks <= |events|
    ensures forall i :: 0 <= i < |w.queriedAt| ==> w.queriedAt[i] <= start + maxWait
    ensures |w.queriedAt| == if TimedOut(w) then w.checks - 1 else w.checks
    ensures TimedOut(w) ==> w.outcome == Finished(Err(TimeoutMessage(w.checks)))
    ensures w.outcome == Waiting ==> w.checks == |events| && NoCancel(events)
    ensures w.outcome.Finished? && w.outcome.outcome.Ok? ==>
              Classify(w.outcome.outcome.value.status) == Succeeded && GetVideoURL(w.outcome.outcome.value) != ""
  {
    Poll(events, start + maxWait, 0, [])
  }

  /** Once the loop has returned, later events make no difference. */
  lemma {:induction false} PollIgnoresLaterEvents(events: seq<Event>, more: seq<Event>, deadline: nat, checks: nat, queriedAt: seq<nat>)
    requires forall i :: 0 <= i < |queriedAt| ==> queriedAt[i] <= deadline
    requires Poll(events, deadline, checks, queriedAt).outcome.Finished?
    ensures Poll(events + more, deadline, checks, queriedAt) == Poll(events, deadline, checks, queriedAt)
    decreases |events|
  {
    assert |events| > 0;
    assert (events + more)[0] == events[0];
    assert (events + more)[1..] == events[1..] + more;
    if events[0].Tick? && events[0].at <= deadline {
      var sent := queriedAt + [events[0].at];
      if events[0].reply.Err? || Classify(events[0].reply.value.status) == Running {
        PollIgnoresLaterEvents(events[1..], more, deadline, checks + 1, sent);
      }
    }
  }

  /** Cancellation ends the loop at once with the context's error. */
  lemma CancelReturnsContextError(e: string, rest: seq<Event>, start: nat, maxWait: nat)
    ensures WaitForCompletion([Cancel(e)] + rest, start, maxWait).outcome == Finished(Err(e))
  {
  }

  /** A tick that finds the deadline passed ends the loop whatever its query
      would have returned: that query is never sent. */
  lemma {:induction false} LateReplyIrrelevant(events: seq<Event>, at: nat, r1: Outcome<Response>, r2: Outcome<Response>,
                                               deadline: nat, checks: nat, queriedAt: seq<nat>)
    requires forall i :: 0 <= i < |queriedAt| ==> queriedAt[i] <= deadline
    requires at > deadline
    ensures Poll(events + [Tick(at, r1)], deadline, checks, queriedAt) == Poll(events + [Tick(at, r2)], deadline, checks, queriedAt)
    decreases |events|
  {
    if |events| == 0 {
      assert [Tick(at, r1)][1..] == [];
    } else {
      assert (events + [Tick(at, r1)])[1..] == events[1..] + [Tick(at, r1)];
      assert (events + [Tick(at, r2)])[1..] == events[1..] + [Tick(at, r2)];
      if events[0].Tick? && events[0].at <= deadline {
        LateReplyIrrelevant(events[1..], at, r1, r2, deadline, checks + 1, queriedAt + [events[0].at]);
      }
    }
  }

  /** A tick before the deadline whose query returned a recognised status
      ends the loop, counting itself and recording its query: a failure
      status with the provider's message ("unknown error" when it gives
      none), a success without a video URL with `ErrNoURL`, and a success
      with a URL with the response itself. */
  lemma DecidingTickEndsLoop(at: nat, resp: Response, rest: seq<Event>, deadline: nat, checks: nat, queriedAt: seq<nat>)
    requires forall i :: 0 <= i < |queriedAt| ==> queriedAt[i] <= deadline
    requires at <= deadline
    requires Classify(resp.status) != Running
    ensures var w := Poll([Tick(at, Ok(resp))] + rest, deadline, checks, queriedAt);
            && w.checks == checks + 1 && w.queriedAt == queriedAt + [at] && !TimedOut(w)
            && (Classify(resp.status) == Failed ==>
                  w.outcome == Finished(Err(FailureMessage(resp.message))))
            && (Classify(resp.status) == Failed && resp.message == "" ==>
                  w.outcome == Finished(Err("video generation failed: unknown error")))
            && (Classify(resp.status) == Succeeded && GetVideoURL(resp) == "" ==>
                  w.outcome == Finished(Err(ErrNoURL)))
            && (Classify(resp.status) == Succeeded && GetVideoURL(resp) != "" ==>
                  w.outcome == Finished(Ok(resp)))
  {
  }

  /** A tick the loop lets pass: before the deadline, with a failed query or
      a status it does not recognise. */
  predicate Transient(e: Event, deadline: nat) {
    e.Tick? && e.at <= deadline && (e.reply.Err? || Classify(e.reply.value.status) == Running)
  }

  /** The clock readings of a run of ticks. */
  function TickTimes(events: seq<Event>): (times: seq<nat>)
    requires NoCancel(events)
    ensures |times| == |events|
    ensures forall i :: 0 <= i < |events| ==> times[i] == events[i].at
  {
    if |events| == 0 then [] else [events[0].at] + TickTimes(events[1..])
  }

  /** Ticks the loop lets pass only count themselves and record their
      queries: whatever follows them is decided as if the loop had started
      there. */
  lemma {:induction false} TransientTicksOnlyAdvance(prefix: seq<Event>, rest: seq<Event>, deadline: nat, checks: nat, queriedAt: seq<nat>)
    requires forall i :: 0 <= i < |queriedAt| ==> queriedAt[i] <= deadline
    requires forall i :: 0 <= i < |prefix| ==> Transient(prefix[i], deadline)
    ensures NoCancel(prefix)
    ensures forall i :: 0 <= i < |prefix| ==> TickTimes(prefix)[i] <= deadline
    ensures Poll(prefix + rest, deadline, checks, queriedAt)
              == Poll(rest, deadline, checks + |prefix|, queriedAt + TickTimes(prefix))
    decreases |prefix|
  {
    if |prefix| == 0 {
      assert prefix + rest == rest;
      assert queriedAt + TickTimes(prefix) == queriedAt;
    } else {
      var sent := queriedAt + [prefix[0].at];
      var tail := prefix[1..];
      assert Poll(prefix + rest, deadline, checks, queriedAt) == Poll(tail + rest, deadline, checks + 1, sent) by {
        assert prefix + rest == [prefix[0]] + (tail + rest);
        TransientTickContinues(prefix[0].at, prefix[0].reply, tail + rest, deadline, checks, queriedAt);
      }
      assert forall i :: 0 <= i < |tail| ==> Transient(tail[i], deadline) by {
        forall i | 0 <= i < |tail| ensures Transient(tail[i], deadline) {
          assert tail[i] == prefix[i + 1];
        }
      }
      TransientTicksOnlyAdvance(tail, rest, deadline, checks + 1, sent);
      assert sent + TickTimes(tail) == queriedAt + TickTimes(prefix) by {
        assert TickTimes(prefix) == [prefix[0].at] + TickTimes(tail);
        AppendAssoc(queriedAt, [prefix[0].at], TickTimes(tail));
      }
      assert checks + 1 + |tail| == checks + |prefix|;
    }
  }

  lemma AppendAssoc(a: seq<nat>, b: seq<nat>, c: seq<nat>)
    ensures (a + b) + c == a + (b + c)
  {
  }

  /** A cancellation ends the wait with the context's error wherever it
      comes, provided every earlier tick was one the loop let pass. */
  lemma CancelAfterTransientTicks(prefix: seq<Event>, e: string, rest: seq<Event>, start: nat, maxWait: nat)
    requires forall i :: 0 <= i < |prefix| ==> Transient(prefix[i], start + maxWait)
    ensures WaitForCompletion(prefix + [Cancel(e)] + rest, start, maxWait).outcome == Finished(Err(e))
    ensures WaitForCompletion(prefix + [Cancel(e)] + rest, start, maxWait).checks == |prefix|
  {
    assert prefix + [Cancel(e)] + rest == prefix + ([Cancel(e)] + rest);
    TransientTicksOnlyAdvance(prefix, [Cancel(e)] + rest, start + maxWait, 0, []);
  }

  /** A status other than the recognised ones, or a failed query, before the
      deadline lets the loop go on to the next tick with one more check. */
  lemma TransientTickContinues(at: nat, reply: Outcome<Response>, rest: seq<Event>, deadline: nat, checks: nat, queriedAt: seq<nat>)
    requires forall i :: 0 <= i < |queriedAt| ==> queriedAt[i] <= deadline
    requires at <= deadline
    requires reply.Err? || Classify(reply.value.status) == Running
    ensures Poll([Tick(at, reply)] + rest, deadline, checks, queriedAt) == Poll(rest, deadline, checks + 1, queriedAt + [at])
  {
    assert ([Tick(at, reply)] + rest)[1..] == rest;
  }
}
