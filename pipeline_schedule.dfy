/** The straight-line reading of `process`: the port calls and progress
    reports of a job in which nothing raises, written out in source order.
    Every job follows this schedule up to the point where something raised,
    and a job that succeeds follows all of it. */
module PipelineSchedule {
  import opened Outcomes
  import opened Models
  import opened Ports
  import opened Pipeline

  /** The audio probe answered yes. */
  predicate Probed(env: Collaborators) {
    env.hasAudio == Success(true)
  }

  /** The probe answered yes and the extraction then reported success. */
  predicate Extracted(env: Collaborators) {
    Probed(env) && env.extractAudio == Success(true)
  }

  /** The frames and frame rate `read_frames` returns (empty when it raises;
      nothing downstream is then scheduled to run). */
  function Decoded(env: Collaborators): (seq<Image>, real) {
    if env.readFrames.Success? then env.readFrames.value else ([], 0.0)
  }

  /** The depths and frame rate `estimate` returns (empty when it raises). */
  function Estimated(env: Collaborators): (seq<DepthMap>, real) {
    if env.estimate.output.Success? then env.estimate.output.value else ([], 0.0)
  }

  /** Every port call of a job, in order, when nothing raises. */
  function ScheduledCalls(c: JobConfig, paths: Targets, env: Collaborators, device: string): seq<PortCall> {
    var (frames, fps) := Decoded(env);
    var (depths, outFps) := Estimated(env);
    [HasAudio(c.inputPath)]
    + (if Probed(env) then [ExtractAudio(c.inputPath, paths.audio)] else [])
    + [ReadFrames(c.inputPath, c.maxLen, c.targetFps, c.maxRes),
       LoadModel(c.encoder, device),
       Estimate(frames, fps, c.inputSize, device, c.fp32),
       SaveVideo(Rgb(frames), paths.src, outFps, false),
       SaveVideo(Depth(depths), paths.depth, outFps, true),
       Merge(paths.src, paths.depth, paths.rgbd, if Extracted(env) then Some(paths.audio) else None)]
  }

  /** Every progress report of a job, in order, when nothing raises: the
      reports before estimation, the estimator's own, and those after. */
  function ScheduledReports(env: Collaborators): seq<Snapshot> {
    Opening(env) + Relay(env.estimate.events) + Closing
  }

  /** Steps 1 to 3. */
  function Opening(env: Collaborators): seq<Snapshot> {
    var (frames, fps) := Decoded(env);
    [Snapshot(ExtractingAudio, 0.0, "Checking for audio...")]
    + (if Probed(env) then [Snapshot(ExtractingAudio, 0.5, "Extracting audio...")] else [])
    + [Snapshot(ReadingFrames, 0.0, "Reading video frames..."),
       Snapshot(ReadingFrames, 1.0, ReadMessage(|frames|, fps)),
       Snapshot(EstimatingDepth, 0.0, "Loading depth model...")]
  }

  /** Steps 5 to 7 and completion. */
  const Closing := [
    Snapshot(SavingSource, 0.0, "Saving source video..."),
    Snapshot(SavingSource, 1.0, "Source video saved"),
    Snapshot(SavingDepth, 0.0, "Saving depth video..."),
    Snapshot(SavingDepth, 1.0, "Depth video saved"),
    Snapshot(MergingRgbd, 0.0, "Merging RGBD video..."),
    Snapshot(MergingRgbd, 1.0, "RGBD merge complete"),
    CompleteSnapshot]

  /** A step can be reached in a job with these collaborators, holding the
      values they returned. */
  predicate Reached(s: Step, env: Collaborators) {
    match s
    case ProbeStep => true
    case ExtractStep => Probed(env)
    case FramesStep(x) => x == Extracted(env)
    case ModelStep(x, frames, fps) => x == Extracted(env) && env.readFrames == Success((frames, fps))
    case EstimateStep(x, frames, fps) => x == Extracted(env) && env.readFrames == Success((frames, fps))
    case SourceStep(x, frames, depths, fps) =>
      && x == Extracted(env) && env.readFrames.Success? && env.readFrames.value.0 == frames
      && env.estimate.output == Success((depths, fps))
    case DepthStep(x, depths, fps) =>
      x == Extracted(env) && env.readFrames.Success? && env.estimate.output == Success((depths, fps))
    case MergeStep(x) =>
      x == Extracted(env) && env.readFrames.Success? && env.estimate.output.Success?
  }

  function Skip(env: Collaborators): nat {
    if Probed(env) then 1 else 0
  }

  /** What a job does against the schedule from the given offsets on: its
      calls are a prefix of the scheduled calls; its reports, but for a final
      FAILED one, are a prefix of the scheduled reports; when it succeeds both
      are the whole remaining schedule; and it reports audio exactly when it
      succeeded and the audio was extracted. */
  predicate FollowsFrom(t: Trace, ks: seq<PortCall>, rs: seq<Snapshot>, callsFrom: nat, reportsFrom: nat, extracted: bool) {
    && callsFrom <= |ks| && reportsFrom <= |rs|
    && t.calls <= ks[callsFrom..]
    && (t.result.success ==> t.calls == ks[callsFrom..] && t.reports == rs[reportsFrom..])
    && (!t.result.success ==> |t.reports| > 0 && t.reports[..|t.reports| - 1] <= rs[reportsFrom..])
    && (t.result.hasAudio <==> t.result.success && extracted)
  }

  /** A step's own part of a schedule, followed by a prefix of what is left
      of it, is a prefix of the schedule from that step on, and the whole of
      it when what follows is the whole rest. */
  lemma Stepped<T>(head: seq<T>, rest: seq<T>, sched: seq<T>, from: nat)
    requires from + |head| <= |sched| && sched[from..from + |head|] == head
    ensures head <= sched[from..]
    ensures rest <= sched[from + |head|..] ==> head + rest <= sched[from..]
    ensures rest == sched[from + |head|..] ==> head + rest == sched[from..]
  {
    assert sched[from..][..|head|] == head;
    if rest <= sched[from + |head|..] {
      assert (head + rest) == sched[from..][..|head| + |rest|];
    }
    if rest == sched[from + |head|..] {
      assert head + rest == sched[from..];
    }
  }

  /** A step that made the scheduled call and reports, and raised. The
      step's reports end where the next step's would start, `reportsTo`. */
  lemma Stopped(head: seq<Snapshot>, call: PortCall, error: string, ks: seq<PortCall>, rs: seq<Snapshot>,
                callsFrom: nat, reportsFrom: nat, reportsTo: nat, extracted: bool)
    requires callsFrom < |ks| && ks[callsFrom] == call
    requires reportsTo == reportsFrom + |head| <= |rs| && rs[reportsFrom..reportsTo] == head
    ensures FollowsFrom(Abort(head, [call], error), ks, rs, callsFrom, reportsFrom, extracted)
  {
    assert ks[callsFrom..callsFrom + 1] == [call];
    Stepped([call], [], ks, callsFrom);
    Stepped(head, [], rs, reportsFrom);
    var t := Abort(head, [call], error);
    assert t.reports[..|t.reports| - 1] == head;
  }

  /** A step that made the scheduled call and reports, raised nothing, and
      handed over to a rest that follows the schedule from `callsTo` and
      `reportsTo` on. */
  lemma Continued(head: seq<Snapshot>, call: PortCall, rest: Trace, ks: seq<PortCall>, rs: seq<Snapshot>,
                  callsFrom: nat, callsTo: nat, reportsFrom: nat, reportsTo: nat, extracted: bool)
    requires callsTo == callsFrom + 1 <= |ks| && ks[callsFrom] == call
    requires reportsTo == reportsFrom + |head| <= |rs| && rs[reportsFrom..reportsTo] == head
    requires FollowsFrom(rest, ks, rs, callsTo, reportsTo, extracted)
    ensures FollowsFrom(Then(head, [call], rest), ks, rs, callsFrom, reportsFrom, extracted)
  {
    var t := Then(head, [call], rest);
    assert ks[callsFrom..callsFrom + 1] == [call];
    Stepped([call], rest.calls, ks, callsFrom);
    Stepped(head, rest.reports, rs, reportsFrom);
    if !rest.result.success {
      assert t.reports[..|t.reports| - 1] == head + rest.reports[..|rest.reports| - 1];
      Stepped(head, rest.reports[..|rest.reports| - 1], rs, reportsFrom);
    }
  }

  /** Where each call sits in a schedule of calls. */
  predicate CallsAt(ks: seq<PortCall>, c: JobConfig, paths: Targets, env: Collaborators, device: string) {
    var p := Skip(env);
    var (frames, fps) := Decoded(env);
    var (depths, outFps) := Estimated(env);
    && |ks| == 7 + p
    && ks[0] == HasAudio(c.inputPath)
    && (Probed(env) ==> ks[1] == ExtractAudio(c.inputPath, paths.audio))
    && ks[1 + p] == ReadFrames(c.inputPath, c.maxLen, c.targetFps, c.maxRes)
    && ks[2 + p] == LoadModel(c.encoder, device)
    && ks[3 + p] == Estimate(frames, fps, c.inputSize, device, c.fp32)
    && ks[4 + p] == SaveVideo(Rgb(frames), paths.src, outFps, false)
    && ks[5 + p] == SaveVideo(Depth(depths), paths.depth, outFps, true)
    && ks[6 + p] == Merge(paths.src, paths.depth, paths.rgbd, if Extracted(env) then Some(paths.audio) else None)
  }

  /** Where the reports of steps 1 to 3 sit in a schedule of reports. */
  predicate OpeningIn(rs: seq<Snapshot>, env: Collaborators) {
    var p := Skip(env);
    var (frames, fps) := Decoded(env);
    && |rs| >= 4 + p
    && rs[0..1] == [Snapshot(ExtractingAudio, 0.0, "Checking for audio...")]
    && (Probed(env) ==> rs[1..2] == [Snapshot(ExtractingAudio, 0.5, "Extracting audio...")])
    && rs[1 + p..2 + p] == [Snapshot(ReadingFrames, 0.0, "Reading video frames...")]
    && rs[1 + p..3 + p] == [Snapshot(ReadingFrames, 0.0, "Reading video frames...")]
                           + [Snapshot(ReadingFrames, 1.0, ReadMessage(|frames|, fps))]
    && rs[3 + p..4 + p] == [Snapshot(EstimatingDepth, 0.0, "Loading depth model...")]
  }

  /** Where the reports of steps 5 to 7 sit in a schedule of reports that
      ends with them, from `at` on. */
  predicate ClosingIn(rs: seq<Snapshot>, at: nat) {
    && |rs| == at + 7
    && rs[at..at + 1] == [Snapshot(SavingSource, 0.0, "Saving source video...")]
    && rs[at..at + 2] == [Snapshot(SavingSource, 0.0, "Saving source video...")]
                         + [Snapshot(SavingSource, 1.0, "Source video saved")]
    && rs[at + 2..at + 3] == [Snapshot(SavingDepth, 0.0, "Saving depth video...")]
    && rs[at + 2..at + 4] == [Snapshot(SavingDepth, 0.0, "Saving depth video...")]
                             + [Snapshot(SavingDepth, 1.0, "Depth video saved")]
    && rs[at + 4..at + 5] == [Snapshot(MergingRgbd, 0.0, "Merging RGBD video...")]
    && rs[at + 4..] == [Snapshot(MergingRgbd, 0.0, "Merging RGBD video...")]
                       + [Snapshot(MergingRgbd, 1.0, "RGBD merge complete"), CompleteSnapshot]
  }

  /** Where each step's reports sit in a schedule of reports. */
  predicate ReportsAt(rs: seq<Snapshot>, env: Collaborators) {
    var p, e := Skip(env), |env.estimate.events|;
    && |rs| == 11 + p + e
    && OpeningIn(rs, env)
    && rs[4 + p..4 + p + e] == Relay(env.estimate.events)
    && ClosingIn(rs, 4 + p + e)
  }

  lemma CallsLaidOut(c: JobConfig, paths: Targets, env: Collaborators, device: string)
    ensures CallsAt(ScheduledCalls(c, paths, env, device), c, paths, env, device)
  {
  }

  lemma OpeningLeads(env: Collaborators, tail: seq<Snapshot>)
    ensures OpeningIn(Opening(env) + tail, env)
  {
    var p := Skip(env);
    var o := Opening(env);
    var rs := o + tail;
    OpeningEntries(env);
    assert rs[..4 + p] == o;
    assert rs[0..1] == [o[0]] && rs[1 + p..2 + p] == [o[1 + p]];
    assert rs[1 + p..3 + p] == [o[1 + p], o[2 + p]];
    assert rs[3 + p..4 + p] == [o[3 + p]];
    assert Probed(env) ==> rs[1..2] == [o[1]];
  }

  lemma OpeningEntries(env: Collaborators)
    ensures var o, p, (frames, fps) := Opening(env), Skip(env), Decoded(env);
      && |o| == 4 + p
      && o[0] == Snapshot(ExtractingAudio, 0.0, "Checking for audio...")
      && (Probed(env) ==> o[1] == Snapshot(ExtractingAudio, 0.5, "Extracting audio..."))
      && o[1 + p] == Snapshot(ReadingFrames, 0.0, "Reading video frames...")
      && o[2 + p] == Snapshot(ReadingFrames, 1.0, ReadMessage(|frames|, fps))
      && o[3 + p] == Snapshot(EstimatingDepth, 0.0, "Loading depth model...")
  {
  }

  lemma ClosingEnds(front: seq<Snapshot>)
    ensures ClosingIn(front + Closing, |front|)
  {
    assert (front + Closing)[|front|..] == Closing;
  }

  lemma ReportsLaidOut(env: Collaborators)
    ensures ReportsAt(ScheduledReports(env), env)
  {
    var opening, relayed := Opening(env), Relay(env.estimate.events);
    Regrouped(opening, relayed, Closing);
    OpeningLeads(env, relayed + Closing);
    ClosingEnds(opening + relayed);
    assert (opening + relayed + Closing)[|opening|..|opening| + |relayed|] == (opening + relayed)[|opening|..];
  }

  /** Every job, from any step it can reach on, follows the schedule. Each
      step has a lemma for the case where its port raised (`...Stops`), one
      for the case where it did not (`...GoesOn`), and one joining the two;
      each takes the rest of the job as `t`. */
  /** The rest of a job from the audio probe on. */
  lemma {:induction false} ProbeFollows(t: Trace, c: JobConfig, paths: Targets, env: Collaborators, device: string,
      ks: seq<PortCall>, rs: seq<Snapshot>)
    requires Reached(ProbeStep, env) && CallsAt(ks, c, paths, env, device) && ReportsAt(rs, env)
    requires t == From(ProbeStep, c, paths, env, device)
    ensures FollowsFrom(t, ks, rs, 0, 0, Extracted(env))
    decreases 8, 1
  {
    if env.hasAudio.Failure? {
      ProbeStops(t, c, paths, env, device, ks, rs);
    } else if env.hasAudio.value {
      ProbeThenExtract(t, c, paths, env, device, ks, rs);
    } else {
      ProbeThenFrames(t, c, paths, env, device, ks, rs);
    }
  }

  lemma ProbeStops(t: Trace, c: JobConfig, paths: Targets, env: Collaborators, device: string,
      ks: seq<PortCall>, rs: seq<Snapshot>)
    requires Reached(ProbeStep, env) && CallsAt(ks, c, paths, env, device) && ReportsAt(rs, env)
    requires env.hasAudio.Failure?
    requires t == From(ProbeStep, c, paths, env, device)
    ensures FollowsFrom(t, ks, rs, 0, 0, Extracted(env))
  {
    assert t == Abort([Snapshot(ExtractingAudio, 0.0, "Checking for audio...")], [HasAudio(c.inputPath)], env.hasAudio.error);
    Stopped([Snapshot(ExtractingAudio, 0.0, "Checking for audio...")], HasAudio(c.inputPath),
            env.hasAudio.error, ks, rs, 0, 0, 1, Extracted(env));
  }

  lemma {:induction false} ProbeThenExtract(t: Trace, c: JobConfig, paths: Targets, env: Collaborators, device: string,
      ks: seq<PortCall>, rs: seq<Snapshot>)
    requires Reached(ProbeStep, env) && CallsAt(ks, c, paths, env, device) && ReportsAt(rs, env)
    requires env.hasAudio == Success(true)
    requires t == From(ProbeStep, c, paths, env, device)
    ensures FollowsFrom(t, ks, rs, 0, 0, Extracted(env))
    decreases 8, 0
  {
    var rest := From(ExtractStep, c, paths, env, device);
    assert t == Then([Snapshot(ExtractingAudio, 0.0, "Checking for audio...")], [HasAudio(c.inputPath)], rest);
    ExtractFollows(rest, c, paths, env, device, ks, rs);
    Continued([Snapshot(ExtractingAudio, 0.0, "Checking for audio...")], HasAudio(c.inputPath),
              rest, ks, rs, 0, 1, 0, 1, Extracted(env));
  }

  lemma {:induction false} ProbeThenFrames(t: Trace, c: JobConfig, paths: Targets, env: Collaborators, device: string,
      ks: seq<PortCall>, rs: seq<Snapshot>)
    requires Reached(ProbeStep, env) && CallsAt(ks, c, paths, env, device) && ReportsAt(rs, env)
    requires env.hasAudio == Success(false)
    requires t == From(ProbeStep, c, paths, env, device)
    ensures FollowsFrom(t, ks, rs, 0, 0, Extracted(env))
    decreases 8, 0
  {
    var rest := From(FramesStep(false), c, paths, env, device);
    assert t == Then([Snapshot(ExtractingAudio, 0.0, "Checking for audio...")], [HasAudio(c.inputPath)], rest);
    FramesFollow(rest, false, c, paths, env, device, ks, rs);
    Continued([Snapshot(ExtractingAudio, 0.0, "Checking for audio...")], HasAudio(c.inputPath),
              rest, ks, rs, 0, 1 + Skip(env), 0, 1 + Skip(env), Extracted(env));
  }

  /** The rest of a job from the audio extraction on. */
  lemma {:induction false} ExtractFollows(t: Trace, c: JobConfig, paths: Targets, env: Collaborators, device: string,
      ks: seq<PortCall>, rs: seq<Snapshot>)
    requires Reached(ExtractStep, env) && CallsAt(ks, c, paths, env, device) && ReportsAt(rs, env)
    requires t == From(ExtractStep, c, paths, env, device)
    ensures FollowsFrom(t, ks, rs, 1, 1, Extracted(env))
    decreases 7, 1
  {
    if env.extractAudio.Failure? {
      ExtractStops(t, c, paths, env, device, ks, rs);
    } else {
      ExtractGoesOn(t, c, paths, env, device, ks, rs);
    }
  }

  lemma ExtractStops(t: Trace, c: JobConfig, paths: Targets, env: Collaborators, device: string,
      ks: seq<PortCall>, rs: seq<Snapshot>)
    requires Reached(ExtractStep, env) && CallsAt(ks, c, paths, env, device) && ReportsAt(rs, env)
    requires env.extractAudio.Failure?
    requires t == From(ExtractStep, c, paths, env, device)
    ensures FollowsFrom(t, ks, rs, 1, 1, Extracted(env))
  {
    assert t == Abort([Snapshot(ExtractingAudio, 0.5, "Extracting audio...")], [ExtractAudio(c.inputPath, paths.audio)], env.extractAudio.error);
    Stopped([Snapshot(ExtractingAudio, 0.5, "Extracting audio...")], ExtractAudio(c.inputPath, paths.audio),
            env.extractAudio.error, ks, rs, 1, 1, 2, Extracted(env));
  }

  lemma {:induction false} ExtractGoesOn(t: Trace, c: JobConfig, paths: Targets, env: Collaborators, device: string,
      ks: seq<PortCall>, rs: seq<Snapshot>)
    requires Reached(ExtractStep, env) && CallsAt(ks, c, paths, env, device) && ReportsAt(rs, env)
    requires !env.extractAudio.Failure?
    requires t == From(ExtractStep, c, paths, env, device)
    ensures FollowsFrom(t, ks, rs, 1, 1, Extracted(env))
    decreases 7, 0
  {
    var rest := From(FramesStep(env.extractAudio.value), c, paths, env, device);
    assert t == Then([Snapshot(ExtractingAudio, 0.5, "Extracting audio...")], [ExtractAudio(c.inputPath, paths.audio)], rest);
    FramesFollow(rest, env.extractAudio.value, c, paths, env, device, ks, rs);
    Continued([Snapshot(ExtractingAudio, 0.5, "Extracting audio...")], ExtractAudio(c.inputPath, paths.audio),
              rest, ks, rs, 1, 1 + Skip(env), 1, 1 + Skip(env), Extracted(env));
  }

  /** The rest of a job from reading the frames on. */
  lemma {:induction false} FramesFollow(t: Trace, x: bool, c: JobConfig, paths: Targets, env: Collaborators, device: string,
      ks: seq<PortCall>, rs: seq<Snapshot>)
    requires Reached(FramesStep(x), env) && CallsAt(ks, c, paths, env, device) && ReportsAt(rs, env)
    requires t == From(FramesStep(x), c, paths, env, device)
    ensures FollowsFrom(t, ks, rs, 1 + Skip(env), 1 + Skip(env), Extracted(env))
    decreases 6, 1
  {
    if env.readFrames.Failure? {
      FramesStops(t, x, c, paths, env, device, ks, rs);
    } else {
      FramesGoesOn(t, x, c, paths, env, device, ks, rs);
    }
  }

  lemma FramesStops(t: Trace, x: bool, c: JobConfig, paths: Targets, env: Collaborators, device: string,
      ks: seq<PortCall>, rs: seq<Snapshot>)
    requires Reached(FramesStep(x), env) && CallsAt(ks, c, paths, env, device) && ReportsAt(rs, env)
    requires env.readFrames.Failure?
    requires t == From(FramesStep(x), c, paths, env, device)
    ensures FollowsFrom(t, ks, rs, 1 + Skip(env), 1 + Skip(env), Extracted(env))
  {
    assert t == Abort([Snapshot(ReadingFrames, 0.0, "Reading video frames...")], [ReadFrames(c.inputPath, c.maxLen, c.targetFps, c.maxRes)], env.readFrames.error);
    Stopped([Snapshot(ReadingFrames, 0.0, "Reading video frames...")], ReadFrames(c.inputPath, c.maxLen, c.targetFps, c.maxRes),
            env.readFrames.error, ks, rs, 1 + Skip(env), 1 + Skip(env), 2 + Skip(env), Extracted(env));
  }

  lemma {:induction false} FramesGoesOn(t: Trace, x: bool, c: JobConfig, paths: Targets, env: Collaborators, device: string,
      ks: seq<PortCall>, rs: seq<Snapshot>)
    requires Reached(FramesStep(x), env) && CallsAt(ks, c, paths, env, device) && ReportsAt(rs, env)
    requires !env.readFrames.Failure?
    requires t == From(FramesStep(x), c, paths, env, device)
    ensures FollowsFrom(t, ks, rs, 1 + Skip(env), 1 + Skip(env), Extracted(env))
    decreases 6, 0
  {
    var rest := From(ModelStep(x, env.readFrames.value.0, env.readFrames.value.1), c, paths, env, device);
    assert t == Then([Snapshot(ReadingFrames, 0.0, "Reading video frames...")]
             + [Snapshot(ReadingFrames, 1.0, ReadMessage(|env.readFrames.value.0|, env.readFrames.value.1))], [ReadFrames(c.inputPath, c.maxLen, c.targetFps, c.maxRes)], rest);
    ModelFollows(rest, x, env.readFrames.value.0, env.readFrames.value.1, c, paths, env, device, ks, rs);
    Continued([Snapshot(ReadingFrames, 0.0, "Reading video frames...")]
             + [Snapshot(ReadingFrames, 1.0, ReadMessage(|env.readFrames.value.0|, env.readFrames.value.1))], ReadFrames(c.inputPath, c.maxLen, c.targetFps, c.maxRes),
              rest, ks, rs, 1 + Skip(env), 2 + Skip(env), 1 + Skip(env), 3 + Skip(env), Extracted(env));
  }

  /** The rest of a job from loading the model on. */
  lemma {:induction false} ModelFollows(t: Trace, x: bool, frames: seq<Image>, fps: real, c: JobConfig, paths: Targets, env: Collaborators, device: string,
      ks: seq<PortCall>, rs: seq<Snapshot>)
    requires Reached(ModelStep(x, frames, fps), env) && CallsAt(ks, c, paths, env, device) && ReportsAt(rs, env)
    requires t == From(ModelStep(x, frames, fps), c, paths, env, device)
    ensures FollowsFrom(t, ks, rs, 2 + Skip(env), 3 + Skip(env), Extracted(env))
    decreases 5, 1
  {
    if env.loadModel.Fail? {
      ModelStops(t, x, frames, fps, c, paths, env, device, ks, rs);
    } else {
      ModelGoesOn(t, x, frames, fps, c, paths, env, device, ks, rs);
    }
  }

  lemma ModelStops(t: Trace, x: bool, frames: seq<Image>, fps: real, c: JobConfig, paths: Targets, env: Collaborators, device: string,
      ks: seq<PortCall>, rs: seq<Snapshot>)
    requires Reached(ModelStep(x, frames, fps), env) && CallsAt(ks, c, paths, env, device) && ReportsAt(rs, env)
    requires env.loadModel.Fail?
    requires t == From(ModelStep(x, frames, fps), c, paths, env, device)
    ensures FollowsFrom(t, ks, rs, 2 + Skip(env), 3 + Skip(env), Extracted(env))
  {
    assert t == Abort([Snapshot(EstimatingDepth, 0.0, "Loading depth model...")], [LoadModel(c.encoder, device)], env.loadModel.error);
    Stopped([Snapshot(EstimatingDepth, 0.0, "Loading depth model...")], LoadModel(c.encoder, device),
            env.loadModel.error, ks, rs, 2 + Skip(env), 3 + Skip(env), 4 + Skip(env), Extracted(env));
  }

  lemma {:induction false} ModelGoesOn(t: Trace, x: bool, frames: seq<Image>, fps: real, c: JobConfig, paths: Targets, env: Collaborators, device: string,
      ks: seq<PortCall>, rs: seq<Snapshot>)
    requires Reached(ModelStep(x, frames, fps), env) && CallsAt(ks, c, paths, env, device) && ReportsAt(rs, env)
    requires !env.loadModel.Fail?
    requires t == From(ModelStep(x, frames, fps), c, paths, env, device)
    ensures FollowsFrom(t, ks, rs, 2 + Skip(env), 3 + Skip(env), Extracted(env))
    decreases 5, 0
  {
    var rest := From(EstimateStep(x, frames, fps), c, paths, env, device);
    assert t == Then([Snapshot(EstimatingDepth, 0.0, "Loading depth model...")], [LoadModel(c.encoder, device)], rest);
    EstimateFollows(rest, x, frames, fps, c, paths, env, device, ks, rs);
    Continued([Snapshot(EstimatingDepth, 0.0, "Loading depth model...")], LoadModel(c.encoder, device),
              rest, ks, rs, 2 + Skip(env), 3 + Skip(env), 3 + Skip(env), 4 + Skip(env), Extracted(env));
  }

  /** The rest of a job from the estimation on. */
  lemma {:induction false} EstimateFollows(t: Trace, x: bool, frames: seq<Image>, fps: real, c: JobConfig, paths: Targets, env: Collaborators, device: string,
      ks: seq<PortCall>, rs: seq<Snapshot>)
    requires Reached(EstimateStep(x, frames, fps), env) && CallsAt(ks, c, paths, env, device) && ReportsAt(rs, env)
    requires t == From(EstimateStep(x, frames, fps), c, paths, env, device)
    ensures FollowsFrom(t, ks, rs, 3 + Skip(env), 4 + Skip(env), Extracted(env))
    decreases 4, 1
  {
    if env.estimate.output.Failure? {
      EstimateStops(t, x, frames, fps, c, paths, env, device, ks, rs);
    } else {
      EstimateGoesOn(t, x, frames, fps, c, paths, env, device, ks, rs);
    }
  }

  lemma EstimateStops(t: Trace, x: bool, frames: seq<Image>, fps: real, c: JobConfig, paths: Targets, env: Collaborators, device: string,
      ks: seq<PortCall>, rs: seq<Snapshot>)
    requires Reached(EstimateStep(x, frames, fps), env) && CallsAt(ks, c, paths, env, device) && ReportsAt(rs, env)
    requires env.estimate.output.Failure?
    requires t == From(EstimateStep(x, frames, fps), c, paths, env, device)
    ensures FollowsFrom(t, ks, rs, 3 + Skip(env), 4 + Skip(env), Extracted(env))
  {
    assert t == Abort(Relay(env.estimate.events), [Estimate(frames, fps, c.inputSize, device, c.fp32)], env.estimate.output.error);
    Stopped(Relay(env.estimate.events), Estimate(frames, fps, c.inputSize, device, c.fp32),
            env.estimate.output.error, ks, rs, 3 + Skip(env), 4 + Skip(env), 4 + Skip(env) + |env.estimate.events|, Extracted(env));
  }

  lemma {:induction false} EstimateGoesOn(t: Trace, x: bool, frames: seq<Image>, fps: real, c: JobConfig, paths: Targets, env: Collaborators, device: string,
      ks: seq<PortCall>, rs: seq<Snapshot>)
    requires Reached(EstimateStep(x, frames, fps), env) && CallsAt(ks, c, paths, env, device) && ReportsAt(rs, env)
    requires !env.estimate.output.Failure?
    requires t == From(EstimateStep(x, frames, fps), c, paths, env, device)
    ensures FollowsFrom(t, ks, rs, 3 + Skip(env), 4 + Skip(env), Extracted(env))
    decreases 4, 0
  {
    var rest := From(SourceStep(x, frames, env.estimate.output.value.0, env.estimate.output.value.1), c, paths, env, device);
    assert t == Then(Relay(env.estimate.events), [Estimate(frames, fps, c.inputSize, device, c.fp32)], rest);
    SourceFollows(rest, x, frames, env.estimate.output.value.0, env.estimate.output.value.1, c, paths, env, device, ks, rs);
    Continued(Relay(env.estimate.events), Estimate(frames, fps, c.inputSize, device, c.fp32),
              rest, ks, rs, 3 + Skip(env), 4 + Skip(env), 4 + Skip(env), 4 + Skip(env) + |env.estimate.events|, Extracted(env));
  }

  /** The rest of a job from saving the source video on. */
  lemma {:induction false} SourceFollows(t: Trace, x: bool, frames: seq<Image>, depths: seq<DepthMap>, fps: real, c: JobConfig, paths: Targets, env: Collaborators, device: string,
      ks: seq<PortCall>, rs: seq<Snapshot>)
    requires Reached(SourceStep(x, frames, depths, fps), env) && CallsAt(ks, c, paths, env, device) && ReportsAt(rs, env)
    requires t == From(SourceStep(x, frames, depths, fps), c, paths, env, device)
    ensures FollowsFrom(t, ks, rs, 4 + Skip(env), 4 + Skip(env) + |env.estimate.events|, Extracted(env))
    decreases 3, 1
  {
    if env.saveSource.Fail? {
      SourceStops(t, x, frames, depths, fps, c, paths, env, device, ks, rs);
    } else {
      SourceGoesOn(t, x, frames, depths, fps, c, paths, env, device, ks, rs);
    }
  }

  lemma SourceStops(t: Trace, x: bool, frames: seq<Image>, depths: seq<DepthMap>, fps: real, c: JobConfig, paths: Targets, env: Collaborators, device: string,
      ks: seq<PortCall>, rs: seq<Snapshot>)
    requires Reached(SourceStep(x, frames, depths, fps), env) && CallsAt(ks, c, paths, env, device) && ReportsAt(rs, env)
    requires env.saveSource.Fail?
    requires t == From(SourceStep(x, frames, depths, fps), c, paths, env, device)
    ensures FollowsFrom(t, ks, rs, 4 + Skip(env), 4 + Skip(env) + |env.estimate.events|, Extracted(env))
  {
    assert t == Abort([Snapshot(SavingSource, 0.0, "Saving source video...")], [SaveVideo(Rgb(frames), paths.src, fps, false)], env.saveSource.error);
    Stopped([Snapshot(SavingSource, 0.0, "Saving source video...")], SaveVideo(Rgb(frames), paths.src, fps, false),
            env.saveSource.error, ks, rs, 4 + Skip(env), 4 + Skip(env) + |env.estimate.events|, 5 + Skip(env) + |env.estimate.events|, Extracted(env));
  }

  lemma {:induction false} SourceGoesOn(t: Trace, x: bool, frames: seq<Image>, depths: seq<DepthMap>, fps: real, c: JobConfig, paths: Targets, env: Collaborators, device: string,
      ks: seq<PortCall>, rs: seq<Snapshot>)
    requires Reached(SourceStep(x, frames, depths, fps), env) && CallsAt(ks, c, paths, env, device) && ReportsAt(rs, env)
    requires !env.saveSource.Fail?
    requires t == From(SourceStep(x, frames, depths, fps), c, paths, env, device)
    ensures FollowsFrom(t, ks, rs, 4 + Skip(env), 4 + Skip(env) + |env.estimate.events|, Extracted(env))
    decreases 3, 0
  {
    var rest := From(DepthStep(x, depths, fps), c, paths, env, device);
    assert t == Then([Snapshot(SavingSource, 0.0, "Saving source video...")] + [Snapshot(SavingSource, 1.0, "Source video saved")], [SaveVideo(Rgb(frames), paths.src, fps, false)], rest);
    DepthFollows(rest, x, depths, fps, c, paths, env, device, ks, rs);
    Continued([Snapshot(SavingSource, 0.0, "Saving source video...")] + [Snapshot(SavingSource, 1.0, "Source video saved")], SaveVideo(Rgb(frames), paths.src, fps, false),
              rest, ks, rs, 4 + Skip(env), 5 + Skip(env), 4 + Skip(env) + |env.estimate.events|, 6 + Skip(env) + |env.estimate.events|, Extracted(env));
  }

  /** The rest of a job from saving the depth video on. */
  lemma {:induction false} DepthFollows(t: Trace, x: bool, depths: seq<DepthMap>, fps: real, c: JobConfig, paths: Targets, env: Collaborators, device: string,
      ks: seq<PortCall>, rs: seq<Snapshot>)
    requires Reached(DepthStep(x, depths, fps), env) && CallsAt(ks, c, paths, env, device) && ReportsAt(rs, env)
    requires t == From(DepthStep(x, depths, fps), c, paths, env, device)
    ensures FollowsFrom(t, ks, rs, 5 + Skip(env), 6 + Skip(env) + |env.estimate.events|, Extracted(env))
    decreases 2, 1
  {
    if env.saveDepth.Fail? {
      DepthStops(t, x, depths, fps, c, paths, env, device, ks, rs);
    } else {
      DepthGoesOn(t, x, depths, fps, c, paths, env, device, ks, rs);
    }
  }

  lemma DepthStops(t: Trace, x: bool, depths: seq<DepthMap>, fps: real, c: JobConfig, paths: Targets, env: Collaborators, device: string,
      ks: seq<PortCall>, rs: seq<Snapshot>)
    requires Reached(DepthStep(x, depths, fps), env) && CallsAt(ks, c, paths, env, device) && ReportsAt(rs, env)
    requires env.saveDepth.Fail?
    requires t == From(DepthStep(x, depths, fps), c, paths, env, device)
    ensures FollowsFrom(t, ks, rs, 5 + Skip(env), 6 + Skip(env) + |env.estimate.events|, Extracted(env))
  {
    assert t == Abort([Snapshot(SavingDepth, 0.0, "Saving depth video...")], [SaveVideo(Depth(depths), paths.depth, fps, true)], env.saveDepth.error);
    Stopped([Snapshot(SavingDepth, 0.0, "Saving depth video...")], SaveVideo(Depth(depths), paths.depth, fps, true),
            env.saveDepth.error, ks, rs, 5 + Skip(env), 6 + Skip(env) + |env.estimate.events|, 7 + Skip(env) + |env.estimate.events|, Extracted(env));
  }

  lemma {:induction false} DepthGoesOn(t: Trace, x: bool, depths: seq<DepthMap>, fps: real, c: JobConfig, paths: Targets, env: Collaborators, device: string,
      ks: seq<PortCall>, rs: seq<Snapshot>)
    requires Reached(DepthStep(x, depths, fps), env) && CallsAt(ks, c, paths, env, device) && ReportsAt(rs, env)
    requires !env.saveDepth.Fail?
    requires t == From(DepthStep(x, depths, fps), c, paths, env, device)
    ensures FollowsFrom(t, ks, rs, 5 + Skip(env), 6 + Skip(env) + |env.estimate.events|, Extracted(env))
    decreases 2, 0
  {
    var rest := From(MergeStep(x), c, paths, env, device);
    assert t == Then([Snapshot(SavingDepth, 0.0, "Saving depth video...")] + [Snapshot(SavingDepth, 1.0, "Depth video saved")], [SaveVideo(Depth(depths), paths.depth, fps, true)], rest);
    MergeFollows(rest, x, c, paths, env, device, ks, rs);
    Continued([Snapshot(SavingDepth, 0.0, "Saving depth video...")] + [Snapshot(SavingDepth, 1.0, "Depth video saved")], SaveVideo(Depth(depths), paths.depth, fps, true),
              rest, ks, rs, 5 + Skip(env), 6 + Skip(env), 6 + Skip(env) + |env.estimate.events|, 8 + Skip(env) + |env.estimate.events|, Extracted(env));
  }

  /** The rest of a job from the merge on. */
  lemma {:induction false} MergeFollows(t: Trace, x: bool, c: JobConfig, paths: Targets, env: Collaborators, device: string,
      ks: seq<PortCall>, rs: seq<Snapshot>)
    requires Reached(MergeStep(x), env) && CallsAt(ks, c, paths, env, device) && ReportsAt(rs, env)
    requires t == From(MergeStep(x), c, paths, env, device)
    ensures FollowsFrom(t, ks, rs, 6 + Skip(env), 8 + Skip(env) + |env.estimate.events|, Extracted(env))
    decreases 1, 1
  {
    if env.merge.Fail? {
      MergeStops(t, x, c, paths, env, device, ks, rs);
    } else {
      MergeGoesOn(t, x, c, paths, env, device, ks, rs);
    }
  }

  lemma MergeStops(t: Trace, x: bool, c: JobConfig, paths: Targets, env: Collaborators, device: string,
      ks: seq<PortCall>, rs: seq<Snapshot>)
    requires Reached(MergeStep(x), env) && CallsAt(ks, c, paths, env, device) && ReportsAt(rs, env)
    requires env.merge.Fail?
    requires t == From(MergeStep(x), c, paths, env, device)
    ensures FollowsFrom(t, ks, rs, 6 + Skip(env), 8 + Skip(env) + |env.estimate.events|, Extracted(env))
  {
    assert t == Abort([Snapshot(MergingRgbd, 0.0, "Merging RGBD video...")], [Merge(paths.src, paths.depth, paths.rgbd, if x then Some(paths.audio) else None)], env.merge.error);
    Stopped([Snapshot(MergingRgbd, 0.0, "Merging RGBD video...")], Merge(paths.src, paths.depth, paths.rgbd, if x then Some(paths.audio) else None),
            env.merge.error, ks, rs, 6 + Skip(env), 8 + Skip(env) + |env.estimate.events|, 9 + Skip(env) + |env.estimate.events|, Extracted(env));
  }

  lemma MergeGoesOn(t: Trace, x: bool, c: JobConfig, paths: Targets, env: Collaborators, device: string,
      ks: seq<PortCall>, rs: seq<Snapshot>)
    requires Reached(MergeStep(x), env) && CallsAt(ks, c, paths, env, device) && ReportsAt(rs, env)
    requires !env.merge.Fail?
    requires t == From(MergeStep(x), c, paths, env, device)
    ensures FollowsFrom(t, ks, rs, 6 + Skip(env), 8 + Skip(env) + |env.estimate.events|, Extracted(env))
  {
    assert ks[6 + Skip(env)..] == [Merge(paths.src, paths.depth, paths.rgbd, if x then Some(paths.audio) else None)];
  }

  /** A whole `process` call follows the schedule: its port calls are a
      prefix of the scheduled ones, and all of them when it succeeds; its
      reports are all the scheduled ones when it succeeds, and otherwise a
      prefix of them followed by FAILED; it reports audio exactly when it
      succeeded and the audio track was extracted. */
  lemma RunFollows(c: JobConfig, env: Collaborators, device: string)
    ensures var t, ks, rs := Run(c, env, device), ScheduledCalls(c, TargetsOf(c), env, device), ScheduledReports(env);
      && t.calls <= ks
      && (t.result.success ==> t.calls == ks && t.reports == rs)
      && (!t.result.success ==> |t.reports| > 0 && t.reports[..|t.reports| - 1] <= rs)
      && (t.result.hasAudio <==> t.result.success && Extracted(env))
  {
    var t, ks, rs := Run(c, env, device), ScheduledCalls(c, TargetsOf(c), env, device), ScheduledReports(env);
    if env.makeDir.Pass? {
      CallsLaidOut(c, TargetsOf(c), env, device);
      ReportsLaidOut(env);
      ProbeFollows(t, c, TargetsOf(c), env, device, ks, rs);
      assert ks[0..] == ks && rs[0..] == rs;
    } else {
      assert t.reports[..|t.reports| - 1] == [];
    }
  }

  /** Which port a call goes to, numbered in the order `process` calls them;
      the two saves are told apart by `is_depths`. */
  function Kind(k: PortCall): nat {
    match k
    case HasAudio(_) => 0
    case ExtractAudio(_, _) => 1
    case ReadFrames(_, _, _, _) => 2
    case LoadModel(_, _) => 3
    case Estimate(_, _, _, _, _) => 4
    case SaveVideo(_, _, _, isDepths) => if isDepths then 6 else 5
    case Merge(_, _, _, _) => 7
  }

  /** The arguments each port is called with: the job's own settings, what
      the earlier ports returned, and the derived paths. Extraction happens
      only after the probe said yes; both saves use the frame rate the
      estimator returned; the merge is given the audio track exactly when it
      was extracted. */
  predicate Proper(k: PortCall, c: JobConfig, paths: Targets, env: Collaborators, device: string) {
    match k
    case HasAudio(video) => video == c.inputPath
    case ExtractAudio(video, output) => Probed(env) && video == c.inputPath && output == paths.audio
    case ReadFrames(video, maxLen, targetFps, maxRes) =>
      video == c.inputPath && maxLen == c.maxLen && targetFps == c.targetFps && maxRes == c.maxRes
    case LoadModel(encoder, d) => encoder == c.encoder && d == device
    case Estimate(images, fps, inputSize, d, fp32) =>
      (images, fps) == Decoded(env) && inputSize == c.inputSize && d == device && fp32 == c.fp32
    case SaveVideo(data, output, fps, isDepths) =>
      && fps == Estimated(env).1
      && (if isDepths then data == Depth(Estimated(env).0) && output == paths.depth
          else data == Rgb(Decoded(env).0) && output == paths.src)
    case Merge(src, depth, output, audio) =>
      && src == paths.src && depth == paths.depth && output == paths.rgbd
      && audio == (if Extracted(env) then Some(paths.audio) else None)
  }

  /** The call at each position of the schedule. */
  lemma ScheduledCallAt(c: JobConfig, paths: Targets, env: Collaborators, device: string, i: nat)
    requires i < |ScheduledCalls(c, paths, env, device)|
    ensures var k := ScheduledCalls(c, paths, env, device)[i];
      Kind(k) == (if i == 0 then 0 else i + 1 - Skip(env)) && Proper(k, c, paths, env, device)
  {
    CallsLaidOut(c, paths, env, device);
    var p := Skip(env);
    if i == 0 {
    } else if i < 1 + p {
    } else if i == 1 + p {
    } else if i == 2 + p {
    } else if i == 3 + p {
    } else if i == 4 + p {
    } else if i == 5 + p {
    } else {
    }
  }

  /** Every port is called at most once, in the order `process` is written,
      and with the arguments `Proper` says. */
  lemma RunCalls(c: JobConfig, env: Collaborators, device: string)
    ensures var t := Run(c, env, device);
      && (forall i, j | 0 <= i < j < |t.calls| :: Kind(t.calls[i]) < Kind(t.calls[j]))
      && (forall k | k in t.calls :: Proper(k, c, TargetsOf(c), env, device))
  {
    var t, ks := Run(c, env, device), ScheduledCalls(c, TargetsOf(c), env, device);
    RunFollows(c, env, device);
    forall i | 0 <= i < |t.calls|
      ensures t.calls[i] == ks[i]
      ensures Kind(t.calls[i]) == (if i == 0 then 0 else i + 1 - Skip(env))
      ensures Proper(t.calls[i], c, TargetsOf(c), env, device)
    {
      assert t.calls[i] == ks[..|t.calls|][i];
      ScheduledCallAt(c, TargetsOf(c), env, device, i);
    }
  }
}
