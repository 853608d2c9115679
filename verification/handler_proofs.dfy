/** Properties of a run of `processTask` (internal/handler/video_handler.go):
    how the stored task ends, what every snapshot keeps, how the progress
    moves, the shot limit, and the zero-shot storyboard. */
module HandlerProofs {
  import opened Wrappers
  import opened Model
  import TaskManager
  import ImageService
  import RenderService
  import opened Handler

  // ---------------------------------------------------------------------
  // Replaying events

  lemma AfterOne(t: Task, e: Event, clock: nat -> nat, at: nat)
    ensures After(t, [e], clock, at) == Apply(t, e, clock(at))
  {
    assert [e][1..] == [];
  }

  lemma AfterTwo(t: Task, e1: Event, e2: Event, clock: nat -> nat, at: nat)
    ensures After(t, [e1, e2], clock, at) == Apply(Apply(t, e1, clock(at)), e2, clock(at + 1))
  {
    assert [e1, e2][1..] == [e2];
    AfterOne(Apply(t, e1, clock(at)), e2, clock, at + 1);
  }

  /** Applying two lists of events one after the other is applying their
      concatenation; the second list reads the clock where the first stops. */
  lemma {:induction false} AfterAppend(t: Task, a: seq<Event>, b: seq<Event>, clock: nat -> nat, at: nat)
    ensures After(t, a + b, clock, at) == After(After(t, a, clock, at), b, clock, at + |a|)
    decreases |a|
  {
    if |a| == 0 {
      assert a + b == b;
    } else {
      var t1 := Apply(t, a[0], clock(at));
      assert After(t, a + b, clock, at) == After(t1, a[1..] + b, clock, at + 1) by {
        assert (a + b)[0] == a[0];
        assert (a + b)[1..] == a[1..] + b;
      }
      AfterAppend(t1, a[1..], b, clock, at + 1);
    }
  }

  /** The last stored snapshot is the task after all the events. */
  lemma {:induction false} ReplayEndsAfter(t: Task, events: seq<Event>, clock: nat -> nat, at: nat)
    requires |events| > 0
    ensures Replay(t, events, clock, at)[|events| - 1] == After(t, events, clock, at)
    decreases |events|
  {
    if |events| > 1 {
      ReplayEndsAfter(Apply(t, events[0], clock(at)), events[1..], clock, at + 1);
    }
  }

  /** The final task is the last snapshot of the run. */
  lemma FinalIsLastSnapshot(t0: Task, s: Settings, st: Stages, clock: nat -> nat)
    ensures Trace(t0, s, st, clock)[|Trace(t0, s, st, clock)| - 1] == Final(t0, s, st, clock)
  {
    ReplayEndsAfter(Started(t0), Events(s, st), clock, 1);
  }

  // ---------------------------------------------------------------------
  // One event at a time

  lemma MarkOne(t: Task, k: StepIndex, status: string, now: nat)
    ensures MarkAll(t, [k], status, now) == UpdateStep(t, StepNames[k], status, now)
  {
    assert [k][1..] == [];
  }

  /** Updating steps leaves everything but the steps, the current step and
      the update time as it was, and keeps the step list's shape. */
  lemma {:induction false} MarkAllKeeps(t: Task, steps: seq<StepIndex>, status: string, now: nat)
    requires Shaped(t)
    ensures var r := MarkAll(t, steps, status, now);
            Shaped(r) && r.(steps := t.steps, currentStep := t.currentStep, updatedAt := t.updatedAt) == t
    decreases |steps|
  {
    if |steps| > 0 {
      UpdateShapedStep(t, steps[0], status, now);
      MarkAllKeeps(UpdateStep(t, StepNames[steps[0]], status, now), steps[1..], status, now);
    }
  }

  /** Moving from step k to step k+1: step k completes, step k+1 starts. */
  lemma Advance(t0: Task, t: Task, k: StepIndex, clock: nat -> nat, at: nat)
    requires k < 3 && Running(t0, t, k)
    ensures Running(t0, After(t, Handoff(k), clock, at), k + 1)
  {
    var t1 := UpdateStep(t, StepNames[k], StepCompleted, clock(at));
    AfterTwo(t, Mark([k], StepCompleted), Mark([k + 1], StepProcessing), clock, at);
    MarkOne(t, k, StepCompleted, clock(at));
    MarkOne(t1, k + 1, StepProcessing, clock(at + 1));
    UpdateShapedStep(t, k, StepCompleted, clock(at));
    UpdateShapedStep(t1, k + 1, StepProcessing, clock(at + 1));
  }

  /** A failure at the step in flight leaves the task failed there. */
  lemma FailHere(t0: Task, t: Task, k: StepIndex, message: string, clock: nat -> nat, at: nat)
    requires Running(t0, t, k)
    ensures Ends(t0, After(t, [FailStep(k, message)], clock, at), FailsAt(k, message))
  {
    AfterOne(t, FailStep(k, message), clock, at);
    UpdateShapedStep(t, k, StepFailed, clock(at));
  }

  /** Progress reports touch only the progress of the task and of the images
      step, so a run in flight at the images step stays there. */
  lemma {:induction false} ReportsKeepRunning(t0: Task, t: Task, rs: seq<Event>, clock: nat -> nat, at: nat)
    requires Running(t0, t, 2)
    requires forall i :: 0 <= i < |rs| ==> rs[i].ReportProgress?
    ensures Running(t0, After(t, rs, clock, at), 2)
    decreases |rs|
  {
    if |rs| > 0 {
      var p := Percent(rs[0].done, rs[0].total);
      var u := t.(progress := p);
      ShapedFirstMatch(u, 2);
      var next := Apply(t, rs[0], clock(at));
      assert next.steps[2].status == t.steps[2].status;
      forall j | 0 <= j < 4 && j != 2
        ensures next.steps[j] == t.steps[j]
      {
        assert !IsFirstMatch(u.steps, StepGenerateImages, j);
      }
      ReportsKeepRunning(t0, next, rs[1..], clock, at + 1);
    }
  }

  // ---------------------------------------------------------------------
  // How the run ends, stage by stage

  lemma RenderStage(t0: Task, st: Stages, t: Task, clock: nat -> nat, at: nat)
    requires Running(t0, t, 3)
    ensures Ends(t0, After(t, RenderEvents(st), clock, at), RenderEnding(st))
  {
    match st.rendered
    case Err(e) => FailHere(t0, t, 3, RenderFailure(e), clock, at);
    case Ok(res) =>
      AfterTwo(t, Mark([3], StepCompleted), Complete(res), clock, at);
      MarkOne(t, 3, StepCompleted, clock(at));
      UpdateShapedStep(t, 3, StepCompleted, clock(at));
  }

  lemma AfterImagesStage(t0: Task, st: Stages, t: Task, clock: nat -> nat, at: nat)
    requires Running(t0, t, 2)
    ensures Ends(t0, After(t, AfterImages(st), clock, at), ImageEnding(st))
  {
    if st.imagesErr.Some? {
      FailHere(t0, t, 2, ImagesFailure(st.imagesErr.value), clock, at);
    } else {
      var marks, rest := Handoff(2), RenderEvents(st);
      var mid := After(t, marks, clock, at);
      assert Running(t0, mid, 3) by {
        Advance(t0, t, 2, clock, at);
      }
      var fin := After(mid, rest, clock, at + 2);
      assert Ends(t0, fin, RenderEnding(st)) by {
        RenderStage(t0, st, mid, clock, at + 2);
      }
      assert After(t, AfterImages(st), clock, at) == fin by {
        AfterAppend(t, marks, rest, clock, at);
      }
      assert ImageEnding(st) == RenderEnding(st);
    }
  }

  lemma ImageStage(t0: Task, st: Stages, t: Task, clock: nat -> nat, at: nat)
    requires Running(t0, t, 2)
    ensures Ends(t0, After(t, ImageEvents(st), clock, at), ImageEnding(st))
  {
    var reports, rest := Reports(st.progress), AfterImages(st);
    var mid := After(t, reports, clock, at);
    assert Running(t0, mid, 2) by {
      ReportsKeepRunning(t0, t, reports, clock, at);
    }
    var fin := After(mid, rest, clock, at + |reports|);
    assert Ends(t0, fin, ImageEnding(st)) by {
      AfterImagesStage(t0, st, mid, clock, at + |reports|);
    }
    assert After(t, ImageEvents(st), clock, at) == fin by {
      AfterAppend(t, reports, rest, clock, at);
    }
  }

  lemma DirectSuccess(t0: Task, t: Task, result: Result, clock: nat -> nat, at: nat)
    requires Running(t0, t, 2)
    ensures var fin := After(t, [Mark([2, 3], StepCompleted), Complete(result)], clock, at);
            Ends(t0, fin, Succeeds(result)) && RenderSkipped(t0, fin)
  {
    var now := clock(at);
    var t1 := UpdateStep(t, StepNames[2], StepCompleted, now);
    var both: seq<StepIndex> := [2, 3];
    assert both[1..] == [3];
    MarkOne(t1, 3, StepCompleted, now);
    assert Apply(t, Mark(both, StepCompleted), now) == UpdateStep(t1, StepNames[3], StepCompleted, now);
    AfterTwo(t, Mark(both, StepCompleted), Complete(result), clock, at);
    UpdateShapedStep(t, 2, StepCompleted, now);
    UpdateShapedStep(t1, 3, StepCompleted, now);
  }

  lemma DirectStage(t0: Task, st: Stages, sb: Storyboard, t: Task, clock: nat -> nat, at: nat)
    requires Running(t0, t, 2)
    ensures var fin := After(t, DirectEvents(st, sb), clock, at);
            && Ends(t0, fin, DirectEnding(st, sb))
            && (DirectEnding(st, sb).Succeeds? ==> RenderSkipped(t0, fin))
  {
    match st.video
    case Waiting =>
      assert DirectEvents(st, sb) == [];
    case Finished(Err(e)) =>
      FailHere(t0, t, 2, VideoFailure(e), clock, at);
    case Finished(Ok(path)) =>
      DirectSuccess(t0, t, DirectResult(path, sb, st.videoSize), clock, at);
  }

  lemma ModeStage(t0: Task, s: Settings, st: Stages, sb: Storyboard, t: Task, clock: nat -> nat, at: nat)
    requires Running(t0, t, 2)
    ensures var fin := After(t, ModeEvents(s, st, sb), clock, at);
            && Ends(t0, fin, ModeEnding(s, st, sb))
            && (s.useQiniuMode && ModeEnding(s, st, sb).Succeeds? ==> RenderSkipped(t0, fin))
  {
    if s.useQiniuMode {
      DirectStage(t0, st, sb, t, clock, at);
    } else {
      ImageStage(t0, st, t, clock, at);
    }
  }

  lemma StoryboardStage(t0: Task, s: Settings, st: Stages, t: Task, clock: nat -> nat, at: nat)
    requires Running(t0, t, 1)
    ensures var fin := After(t, StoryboardEvents(s, st), clock, at);
            && Ends(t0, fin, StoryboardEnding(s, st))
            && (s.useQiniuMode && StoryboardEnding(s, st).Succeeds? ==> RenderSkipped(t0, fin))
  {
    match st.boarded
    case Err(e) =>
      FailHere(t0, t, 1, StoryboardFailure(e), clock, at);
    case Ok(sb) =>
      if |sb.shots| > s.maxShotsPerVideo {
        FailHere(t0, t, 1, TooManyShots(|sb.shots|, s.maxShotsPerVideo), clock, at);
      } else {
        var marks, rest := Handoff(1), ModeEvents(s, st, sb);
        var mid := After(t, marks, clock, at);
        assert Running(t0, mid, 2) by {
          Advance(t0, t, 1, clock, at);
        }
        var fin := After(mid, rest, clock, at + 2);
        var ending := ModeEnding(s, st, sb);
        assert Ends(t0, fin, ending) && (s.useQiniuMode && ending.Succeeds? ==> RenderSkipped(t0, fin)) by {
          ModeStage(t0, s, st, sb, mid, clock, at + 2);
        }
        assert After(t, StoryboardEvents(s, st), clock, at) == fin by {
          AfterAppend(t, marks, rest, clock, at);
        }
        assert StoryboardEnding(s, st) == ending;
      }
  }

  lemma ParseStage(t0: Task, s: Settings, st: Stages, t: Task, clock: nat -> nat, at: nat)
    requires Running(t0, t, 0)
    ensures var fin := After(t, ParseEvents(s, st), clock, at);
            && Ends(t0, fin, EndingOf(s, st))
            && (s.useQiniuMode && EndingOf(s, st).Succeeds? ==> RenderSkipped(t0, fin))
  {
    match st.parsed
    case Err(e) =>
      FailHere(t0, t, 0, ParseFailure(e), clock, at);
    case Ok(_) =>
      var marks, rest := Handoff(0), StoryboardEvents(s, st);
      var mid := After(t, marks, clock, at);
      assert Running(t0, mid, 1) by {
        Advance(t0, t, 0, clock, at);
      }
      var fin := After(mid, rest, clock, at + 2);
      var ending := StoryboardEnding(s, st);
      assert Ends(t0, fin, ending) && (s.useQiniuMode && ending.Succeeds? ==> RenderSkipped(t0, fin)) by {
        StoryboardStage(t0, s, st, mid, clock, at + 2);
      }
      assert After(t, ParseEvents(s, st), clock, at) == fin by {
        AfterAppend(t, marks, rest, clock, at);
      }
      assert EndingOf(s, st) == ending;
  }

  /** The first step starts as soon as the task is marked processing. */
  lemma Begin(t0: Task, clock: nat -> nat)
    requires Shaped(t0)
    ensures Running(t0, After(Started(t0), [Mark([0], StepProcessing)], clock, 1), 0)
  {
    AfterOne(Started(t0), Mark([0], StepProcessing), clock, 1);
    MarkOne(Started(t0), 0, StepProcessing, clock(1));
    UpdateShapedStep(Started(t0), 0, StepProcessing, clock(1));
  }

  /** The stored task ends as the collaborators' outcomes say: failed at the
      first step whose service failed (or at the storyboard step when there
      are too many shots), with that step's message, the steps before it
      completed and the ones after it untouched; completed at 100% with the
      result when every stage succeeded, the render step never started in
      direct mode; or still processing at the images step while the remote
      video service has not answered. */
  lemma RunEndsAsExpected(t0: Task, s: Settings, st: Stages, clock: nat -> nat)
    requires Shaped(t0)
    ensures Ends(t0, Final(t0, s, st, clock), EndingOf(s, st))
    ensures s.useQiniuMode && EndingOf(s, st).Succeeds? ==> RenderSkipped(t0, Final(t0, s, st, clock))
    ensures Trace(t0, s, st, clock)[|Trace(t0, s, st, clock)| - 1] == Final(t0, s, st, clock)
  {
    var first := [Mark([0], StepProcessing)];
    AfterAppend(Started(t0), first, ParseEvents(s, st), clock, 1);
    Begin(t0, clock);
    ParseStage(t0, s, st, After(Started(t0), first, clock, 1), clock, 2);
    FinalIsLastSnapshot(t0, s, st, clock);
  }

  /** A task that was fresh and whose run failed has exactly one failed
      step; every step before it completed and every step after it still
      pending. */
  lemma FailedRunShape(t0: Task, s: Settings, st: Stages, clock: nat -> nat)
    requires IsFresh(t0)
    ensures var fin := Final(t0, s, st, clock);
            Shaped(fin) && fin.status == TaskFailed ==>
              exists k :: 0 <= k < 4 && fin.steps[k].status == StepFailed
                && (forall j :: 0 <= j < k ==> fin.steps[j].status == StepCompleted)
                && (forall j :: k < j < 4 ==> IsPendingStep(fin.steps[j], StepNames[j]))
                && fin.result == None && fin.error != ""
  {
    RunEndsAsExpected(t0, s, st, clock);
    var fin := Final(t0, s, st, clock);
    match EndingOf(s, st)
    case FailsAt(k, _) =>
      assert fin.steps[k].status == StepFailed;
    case Succeeds(_) =>
    case Stalls =>
  }

  /** A completed run has completed all four steps, is at 100% and carries
      the result; in direct mode the render step is completed without ever
      having been started. */
  lemma CompletedRunShape(t0: Task, s: Settings, st: Stages, clock: nat -> nat)
    requires IsFresh(t0)
    ensures var fin := Final(t0, s, st, clock);
            Shaped(fin) && fin.status == TaskCompleted ==>
              && fin.progress == 100 && fin.result.Some? && fin.error == ""
              && (forall j :: 0 <= j < 4 ==> fin.steps[j].status == StepCompleted)
              && (s.useQiniuMode ==> fin.steps[3].startAt == None && fin.steps[3].duration == 0)
  {
    RunEndsAsExpected(t0, s, st, clock);
  }

  /** Once the storyboard is generated, the storyboard step fails exactly
      when it has more shots than the limit allows; a storyboard with
      exactly the maximum number of shots goes on. */
  lemma ShotLimit(t0: Task, s: Settings, st: Stages, clock: nat -> nat)
    requires Shaped(t0) && st.parsed.Ok? && st.boarded.Ok?
    ensures var n := |st.boarded.value.shots|;
            var fin := Final(t0, s, st, clock);
            && Shaped(fin)
            && (fin.steps[1].status == StepFailed <==> n > s.maxShotsPerVideo)
            && (n > s.maxShotsPerVideo ==> fin.status == TaskFailed && fin.error == TooManyShots(n, s.maxShotsPerVideo))
  {
    RunEndsAsExpected(t0, s, st, clock);
  }

  // ---------------------------------------------------------------------
  // Identity and progress of the snapshots

  /** The snapshot keeps the task's identity, input and creation time, and
      the step list's shape. */
  predicate SameTask(t0: Task, t: Task) {
    Shaped(t) && t.id == t0.id && t.input == t0.input && t.createdAt == t0.createdAt
  }

  /** The progress an event leaves the task at, from progress `p`. */
  function Level(p: int, e: Event): int {
    match e
    case ReportProgress(done, total) => Percent(done, total)
    case Complete(_) => 100
    case _ => p
  }

  lemma ApplyKeeps(t: Task, e: Event, now: nat)
    requires Shaped(t)
    ensures SameTask(t, Apply(t, e, now))
    ensures Apply(t, e, now).progress == Level(t.progress, e)
  {
    match e
    case Mark(steps, status) => MarkAllKeeps(t, steps, status, now);
    case ReportProgress(done, total) =>
    case FailStep(k, message) => UpdateShapedStep(t, k, StepFailed, now);
    case Complete(_) =>
  }

  /** Every stored snapshot is the same task, with the fixed four steps. */
  lemma {:induction false} ReplayKeeps(t0: Task, t: Task, events: seq<Event>, clock: nat -> nat, at: nat)
    requires SameTask(t0, t)
    ensures forall i :: 0 <= i < |events| ==> SameTask(t0, Replay(t, events, clock, at)[i])
    decreases |events|
  {
    if |events| > 0 {
      var next := Apply(t, events[0], clock(at));
      ApplyKeeps(t, events[0], clock(at));
      ReplayKeeps(t0, next, events[1..], clock, at + 1);
    }
  }

  lemma SnapshotsKeepIdentity(t0: Task, s: Settings, st: Stages, clock: nat -> nat)
    requires Shaped(t0)
    ensures forall i :: 0 <= i < |Trace(t0, s, st, clock)| ==> SameTask(t0, Trace(t0, s, st, clock)[i])
  {
    ReplayKeeps(t0, Started(t0), Events(s, st), clock, 1);
  }

  /** The progress never falls and stays within 0..100 along `events`. */
  predicate Raises(p: int, events: seq<Event>)
    decreases |events|
  {
    |events| == 0 || (p <= Level(p, events[0]) <= 100 && Raises(Level(p, events[0]), events[1..]))
  }

  predicate ReportFree(events: seq<Event>) {
    forall i :: 0 <= i < |events| ==> !events[i].ReportProgress?
  }

  /** Events that report no progress never lower it. */
  lemma {:induction false} FreeRaises(p: int, events: seq<Event>)
    requires 0 <= p <= 100 && ReportFree(events)
    ensures Raises(p, events)
    decreases |events|
  {
    if |events| > 0 {
      FreeRaises(Level(p, events[0]), events[1..]);
    }
  }

  /** Rising events followed by events that report nothing still rise. */
  lemma {:induction false} RaisesThen(p: int, a: seq<Event>, b: seq<Event>)
    requires 0 <= p <= 100 && Raises(p, a) && ReportFree(b)
    ensures Raises(p, a + b)
    decreases |a|
  {
    if |a| == 0 {
      assert a + b == b;
      FreeRaises(p, b);
    } else {
      assert (a + b)[0] == a[0];
      assert (a + b)[1..] == a[1..] + b;
      RaisesThen(Level(p, a[0]), a[1..], b);
    }
  }

  /** Status updates and failures in front of rising events keep them rising. */
  lemma {:induction false} SteadyThen(p: int, a: seq<Event>, b: seq<Event>)
    requires (forall i :: 0 <= i < |a| ==> a[i].Mark? || a[i].FailStep?) && 0 <= p <= 100 && Raises(p, b)
    ensures Raises(p, a + b)
    decreases |a|
  {
    if |a| == 0 {
      assert a + b == b;
    } else {
      assert (a + b)[0] == a[0];
      assert (a + b)[1..] == a[1..] + b;
      SteadyThen(p, a[1..], b);
    }
  }

  /** Multiplying by a natural number keeps an order. */
  lemma {:induction false} MulMonotone(a: int, b: int, n: nat)
    requires a <= b
    ensures a * n <= b * n
    decreases n
  {
    if n > 0 {
      MulMonotone(a, b, n - 1);
      assert a * n == a * (n - 1) + a && b * n == b * (n - 1) + b;
    }
  }

  /** Integer division by a positive number never reverses an order. */
  lemma DivMonotone(x: nat, y: nat, n: Positive)
    requires x <= y
    ensures x / n <= y / n
  {
    var qx, qy := x / n, y / n;
    if qx > qy {
      MulMonotone(qy + 1, qx, n);
      assert false;
    }
  }

  /** A multiple of `n` divided by `n` is its factor. */
  lemma DivOfMultiple(q: nat, n: Positive)
    ensures (q * n) / n == q
  {
    var d := (q * n) / n;
    if d < q {
      MulMonotone(d + 1, q, n);
      assert false;
    } else if d > q {
      MulMonotone(q + 1, d, n);
      assert false;
    }
  }

  /** More shots done is never less progress, and all shots done is 100%. */
  lemma PercentMonotone(a: nat, b: nat, n: Positive)
    requires a <= b <= n
    ensures 0 <= Percent(a, n) <= Percent(b, n) <= 100
    ensures Percent(n, n) == 100
  {
    MulMonotone(a, b, 100);
    MulMonotone(b, n, 100);
    DivMonotone(a * 100, b * 100, n);
    DivMonotone(b * 100, n * 100, n);
    DivOfMultiple(100, n);
    assert n * 100 == 100 * n;
  }

  /** The progress reports of the image loop, (i+1, n) for the i-th saved
      shot counted from `off`, rise from any level up to off/n. */
  lemma {:induction false} ReportsRaise(p: int, rs: seq<Event>, off: nat, n: Positive)
    requires off + |rs| <= n && 0 <= p <= Percent(off, n)
    requires forall j :: 0 <= j < |rs| ==> rs[j] == ReportProgress(off + j + 1, n)
    ensures Raises(p, rs)
    decreases |rs|
  {
    if |rs| > 0 {
      PercentMonotone(off, off + 1, n);
      var rest := rs[1..];
      assert forall j :: 0 <= j < |rest| ==> rest[j] == ReportProgress(off + 1 + j + 1, n) by {
        forall j | 0 <= j < |rest| ensures rest[j] == ReportProgress(off + 1 + j + 1, n) {
          assert rest[j] == rs[j + 1];
        }
      }
      ReportsRaise(Percent(off + 1, n), rest, off + 1, n);
    }
  }

  /** The snapshots stay within `p`..100 and their progress never falls. */
  predicate Rising(p: int, r: seq<Task>) {
    && (forall i :: 0 <= i < |r| ==> p <= r[i].progress <= 100)
    && (forall i, j :: 0 <= i <= j < |r| ==> r[i].progress <= r[j].progress)
  }

  lemma RisingCons(p: int, x: Task, rest: seq<Task>)
    requires p <= x.progress <= 100 && Rising(x.progress, rest)
    ensures Rising(p, [x] + rest)
  {
    var r := [x] + rest;
    forall i | 0 <= i < |r| ensures p <= r[i].progress <= 100 {
      if i > 0 {
        assert r[i] == rest[i - 1];
      }
    }
    forall i, j | 0 <= i <= j < |r| ensures r[i].progress <= r[j].progress {
      if 0 < i {
        assert r[i] == rest[i - 1] && r[j] == rest[j - 1];
      } else if 0 < j {
        assert r[j] == rest[j - 1];
      }
    }
  }

  lemma {:induction false} ReplayRises(t: Task, events: seq<Event>, clock: nat -> nat, at: nat)
    requires Raises(t.progress, events) && Shaped(t)
    ensures Rising(t.progress, Replay(t, events, clock, at))
    decreases |events|
  {
    if |events| > 0 {
      var next := Apply(t, events[0], clock(at));
      ApplyKeeps(t, events[0], clock(at));
      ReplayRises(next, events[1..], clock, at + 1);
      var rest := Replay(next, events[1..], clock, at + 1);
      assert Replay(t, events, clock, at) == [next] + rest;
      RisingCons(t.progress, next, rest);
    }
  }

  lemma FreeAppend(a: seq<Event>, b: seq<Event>)
    requires ReportFree(a) && ReportFree(b)
    ensures ReportFree(a + b)
  {
  }

  lemma AfterImagesFree(st: Stages)
    ensures ReportFree(AfterImages(st))
  {
    if st.imagesErr.None? {
      FreeAppend(Handoff(2), RenderEvents(st));
    }
  }

  lemma ImageEventsRaise(st: Stages)
    requires st.boarded.Ok? && CountsUp(st)
    ensures Raises(0, ImageEvents(st))
  {
    var reports := Reports(st.progress);
    var n := |st.boarded.value.shots|;
    if n > 0 {
      ReportsRaise(0, reports, 0, n);
    } else {
      assert reports == [];
    }
    AfterImagesFree(st);
    RaisesThen(0, reports, AfterImages(st));
  }

  lemma StoryboardEventsRaise(s: Settings, st: Stages)
    requires CountsUp(st)
    ensures Raises(0, StoryboardEvents(s, st))
  {
    match st.boarded
    case Err(_) =>
      FreeRaises(0, StoryboardEvents(s, st));
    case Ok(sb) =>
      if |sb.shots| > s.maxShotsPerVideo {
        FreeRaises(0, StoryboardEvents(s, st));
      } else {
        if s.useQiniuMode {
          FreeRaises(0, DirectEvents(st, sb));
        } else {
          ImageEventsRaise(st);
        }
        SteadyThen(0, Handoff(1), ModeEvents(s, st, sb));
      }
  }

  /** From 0%, the progress the events of a run leave the task at never
      falls and never passes 100%. */
  lemma EventsRaise(s: Settings, st: Stages)
    requires CountsUp(st)
    ensures Raises(0, Events(s, st))
  {
    if st.parsed.Err? {
      FreeRaises(0, ParseEvents(s, st));
    } else {
      StoryboardEventsRaise(s, st);
      SteadyThen(0, Handoff(0), StoryboardEvents(s, st));
    }
    SteadyThen(0, [Mark([0], StepProcessing)], ParseEvents(s, st));
  }

  lemma RisingTrace(t0: Task, s: Settings, st: Stages, clock: nat -> nat)
    requires Shaped(t0) && t0.progress == 0 && CountsUp(st)
    ensures Rising(0, Trace(t0, s, st, clock))
  {
    EventsRaise(s, st);
    var r := Replay(Started(t0), Events(s, st), clock, 1);
    ReplayRises(Started(t0), Events(s, st), clock, 1);
    assert Trace(t0, s, st, clock) == [Started(t0)] + r;
    RisingCons(0, Started(t0), r);
  }

  /** Along the stored snapshots of a task that starts at 0%, the progress
      never falls and never leaves 0..100. */
  lemma ProgressNeverFalls(t0: Task, s: Settings, env: Env)
    requires Shaped(t0) && t0.progress == 0
    ensures var tr := Trace(t0, s, StagesOf(t0, s, env), env.clock);
            forall i, j :: 0 <= i <= j < |tr| ==> 0 <= tr[i].progress <= tr[j].progress <= 100
  {
    RisingTrace(t0, s, StagesOf(t0, s, env), env.clock);
  }

  /** In image mode, once the storyboard is within the limit, the run
      starts the first three steps in turn, then reports progress, then
      does what follows the image loop. */
  lemma ImageModeEvents(s: Settings, st: Stages)
    requires !s.useQiniuMode && st.parsed.Ok? && st.boarded.Ok?
    requires |st.boarded.value.shots| <= s.maxShotsPerVideo
    ensures Events(s, st) == [Mark([0], StepProcessing), Mark([0], StepCompleted), Mark([1], StepProcessing),
                              Mark([1], StepCompleted), Mark([2], StepProcessing)]
                             + (Reports(st.progress) + AfterImages(st))
  {
    var reports, rest := Reports(st.progress), AfterImages(st);
    assert ModeEvents(s, st, st.boarded.value) == reports + rest;
    assert StoryboardEvents(s, st) == Handoff(1) + (reports + rest);
    assert ParseEvents(s, st) == Handoff(0) + (Handoff(1) + (reports + rest));
  }

  /** In image mode, when every shot's image is saved, the last progress
      report is n of n shots, which is 100%, and it comes before any edit
      of the render step. */
  lemma ImagesReachFullProgress(s: Settings, st: Stages)
    requires !s.useQiniuMode && st.parsed.Ok? && st.boarded.Ok? && CountsUp(st)
    requires 0 < |st.boarded.value.shots| <= s.maxShotsPerVideo
    requires |st.progress| == |st.boarded.value.shots|
    ensures var n := |st.boarded.value.shots|;
            var ev := Events(s, st);
            && 4 + n < |ev| && ev[4 + n] == ReportProgress(n, n) && Level(0, ev[4 + n]) == 100
            && forall j :: 0 <= j <= 4 + n ==> !ev[j].Mark? || 3 !in ev[j].steps
  {
    var n := |st.boarded.value.shots|;
    var sb := st.boarded.value;
    var prefix := [Mark([0], StepProcessing), Mark([0], StepCompleted), Mark([1], StepProcessing),
                   Mark([1], StepCompleted), Mark([2], StepProcessing)];
    var reports, rest := Reports(st.progress), AfterImages(st);
    var ev := Events(s, st);
    assert ev == prefix + (reports + rest) by {
      ImageModeEvents(s, st);
    }
    forall j | 0 <= j <= 4 + n
      ensures !ev[j].Mark? || 3 !in ev[j].steps
    {
      if j < 5 {
        assert ev[j] == prefix[j];
      } else {
        assert ev[j] == (reports + rest)[j - 5] == reports[j - 5];
      }
    }
    assert ev[4 + n] == reports[n - 1] by {
      assert (reports + rest)[n - 1] == reports[n - 1];
    }
    assert Percent(n, n) == 100 by {
      PercentMonotone(n, n, n);
    }
  }

  /** An image loop that succeeds reports once per shot. */
  lemma ImagesDoneReportEveryShot(t0: Task, s: Settings, env: Env)
    requires Boarded(env).Ok? && env.imagesDirErr.None?
    requires ImageRun(t0, s, Boarded(env).value, env).err.None?
    ensures |StagesOf(t0, s, env).progress| == |Boarded(env).value.shots|
  {
    var sb := Boarded(env).value;
    ImageService.SuccessSavesEveryShot(sb.shots, s.dataDir, t0.id, env.attempt);
  }

  // ---------------------------------------------------------------------
  // The registry

  /** Storing snapshots of one registered task replaces that entry by the
      last snapshot: none of the updates is refused. */
  lemma {:induction false} StoreKeepsLast(tasks: TaskManager.Tasks, trace: seq<Task>, id: string)
    requires id in tasks && |trace| > 0
    requires forall i :: 0 <= i < |trace| ==> trace[i].id == id
    ensures Store(tasks, trace) == tasks[id := trace[|trace| - 1]]
    decreases |trace|
  {
    var next := TaskManager.Update(tasks, trace[0]).tasks;
    assert next == tasks[id := trace[0]];
    if |trace| > 1 {
      StoreKeepsLast(next, trace[1..], id);
      assert next[id := trace[|trace| - 1]] == tasks[id := trace[|trace| - 1]];
    }
  }

  /** `processTask` on a registered task leaves the registry with that task
      replaced by the run's final state and every other entry unchanged. */
  lemma ProcessTaskStoresFinal(tasks: TaskManager.Tasks, id: string, s: Settings, env: Env)
    requires id in tasks && tasks[id].id == id && Shaped(tasks[id])
    ensures ProcessTask(tasks, id, s, env) == tasks[id := Final(tasks[id], s, StagesOf(tasks[id], s, env), env.clock)]
  {
    var t0 := tasks[id];
    var st := StagesOf(t0, s, env);
    StoresFinal(tasks, t0, s, st, env.clock);
  }

  lemma StoresFinal(tasks: TaskManager.Tasks, t0: Task, s: Settings, st: Stages, clock: nat -> nat)
    requires t0.id in tasks && Shaped(t0)
    ensures Store(tasks, Trace(t0, s, st, clock)) == tasks[t0.id := Final(t0, s, st, clock)]
  {
    var tr := Trace(t0, s, st, clock);
    assert forall i :: 0 <= i < |tr| ==> tr[i].id == t0.id by {
      SnapshotsKeepIdentity(t0, s, st, clock);
    }
    assert tr[|tr| - 1] == Final(t0, s, st, clock) by {
      FinalIsLastSnapshot(t0, s, st, clock);
    }
    StoreKeepsLast(tasks, tr, t0.id);
  }

  // ---------------------------------------------------------------------
  // The zero-shot storyboard

  /** In image mode, a storyboard with no shots passes the shot limit and an
      image loop with nothing to do, and reaches the render with an empty
      shot list. The concat-file writer as written does not return on that
      input (it indexes the shot before the first); with the corrected
      writer the task fails at the render step with "storyboard has no
      shots". */
  lemma ZeroShotStoryboardReachesRender(t0: Task, s: Settings, env: Env)
    requires Shaped(t0) && !s.useQiniuMode && 0 <= s.maxShotsPerVideo
    requires Parsed(t0, env).Ok? && Boarded(env).Ok? && Boarded(env).value.shots == []
    requires env.imagesDirErr.None? && env.render.concatCreateErr.None?
    ensures var run := ImageRun(t0, s, Boarded(env).value, env);
            && run.err.None? && run.shots == []
            && !RenderService.ConcatReturns(run.shots, env.render.concatCreateErr)
    ensures var fin := Final(t0, s, StagesOf(t0, s, env), env.clock);
            && Shaped(fin) && fin.status == TaskFailed && fin.steps[3].status == StepFailed
            && fin.error == RenderFailure("failed to generate concat file: " + RenderService.ErrNoShots)
  {
    var sb := Boarded(env).value;
    var run := ImageRun(t0, s, sb, env);
    assert ImageService.FirstUnsaved(env.attempt, 0, 0) == 0;
    assert run.shots == [];
    RenderService.ConcatFailsOnlyWithoutShots(run.shots, env.render.concatCreateErr);
    var st := StagesOf(t0, s, env);
    assert st.rendered == Err("failed to generate concat file: " + RenderService.ErrNoShots);
    RunEndsAsExpected(t0, s, st, env.clock);
  }
}
