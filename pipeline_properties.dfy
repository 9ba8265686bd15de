/** What every `process` call does, whatever its collaborators do: how it
    ends, which ports it calls with which arguments and in which order, and
    how its progress reports advance. Each property is proved about the
    rest of the job from any step (`From`) by induction over the steps, and
    then stated for a whole run (`Run`). */
module PipelineProperties {
  import opened Outcomes
  import opened Models
  import opened Ports
  import opened Pipeline

  function Last<T>(s: seq<T>): T
    requires |s| > 0
  {
    s[|s| - 1]
  }

  /** No call in `ks` raised. */
  predicate NoneRaised(env: Collaborators, ks: seq<PortCall>) {
    forall i | 0 <= i < |ks| :: !Raised(env, ks[i])
  }

  /** The last call raised and none before it did: nothing was called after
      the exception. */
  predicate StoppedAtRaise(env: Collaborators, ks: seq<PortCall>) {
    |ks| > 0 && Raised(env, ks[|ks| - 1]) && NoneRaised(env, ks[..|ks| - 1])
  }

  /** FAILED, if reported at all, is the last report. */
  predicate FailedOnlyLast(rs: seq<Snapshot>) {
    forall i | 0 <= i < |rs| - 1 :: rs[i].stage != Failed
  }

  /** How a job from some step on ends, when the paths it was given are
      `paths`: it succeeds exactly when no port it called raised; a success
      ends on COMPLETE and returns the three output paths; a failure stops at
      the first port that raised, reports FAILED with that exception's text
      and returns it as the error. */
  predicate Ends(t: Trace, env: Collaborators, paths: Targets) {
    && |t.reports| > 0 && |t.calls| > 0
    && (t.result.success <==> NoneRaised(env, t.calls))
    && (t.result.success ==>
          && Last(t.reports) == CompleteSnapshot
          && t.result.srcPath == Some(paths.src) && t.result.depthPath == Some(paths.depth)
          && t.result.rgbdPath == Some(paths.rgbd) && t.result.error == None)
    && (!t.result.success ==>
          && StoppedAtRaise(env, t.calls)
          && Last(t.reports) == Snapshot(Failed, 0.0, ErrorOf(env, Last(t.calls)))
          && t.result == FailureResult(ErrorOf(env, Last(t.calls))))
    && FailedOnlyLast(t.reports)
  }

  /** A step whose one call raised. */
  lemma Aborted(env: Collaborators, rs: seq<Snapshot>, call: PortCall, paths: Targets)
    requires Raised(env, call)
    requires forall i | 0 <= i < |rs| :: rs[i].stage != Failed
    ensures Ends(Abort(rs, [call], ErrorOf(env, call)), env, paths)
  {
    var t := Abort(rs, [call], ErrorOf(env, call));
    assert t.calls[0] == call && t.calls[..|t.calls| - 1] == [];
  }

  /** A step that raised nothing hands over to the rest of the job. */
  lemma Joined(env: Collaborators, rs: seq<Snapshot>, ks: seq<PortCall>, rest: Trace, paths: Targets)
    requires NoneRaised(env, ks) && Ends(rest, env, paths)
    requires forall i | 0 <= i < |rs| :: rs[i].stage != Failed
    ensures Ends(Then(rs, ks, rest), env, paths)
  {
    var t := Then(rs, ks, rest);
    if NoneRaised(env, t.calls) {
      forall i | 0 <= i < |rest.calls| ensures !Raised(env, rest.calls[i]) {
        assert rest.calls[i] == t.calls[|ks| + i];
      }
    }
    assert t.calls[..|t.calls| - 1] == ks + rest.calls[..|rest.calls| - 1];
  }

  /** Every job, from any step on, ends as `Ends` says. */
  lemma {:induction false} FromEnds(s: Step, c: JobConfig, paths: Targets, env: Collaborators, device: string)
    ensures Ends(From(s, c, paths, env, device), env, paths)
    decreases 8 - Index(s), 2
  {
    if Index(s) < 4 {
      EarlyStepsEnd(s, c, paths, env, device);
    } else {
      LateStepsEnd(s, c, paths, env, device);
    }
  }

  /** `FromEnds` for steps 1 to 3. */
  lemma {:induction false} EarlyStepsEnd(s: Step, c: JobConfig, paths: Targets, env: Collaborators, device: string)
    requires Index(s) < 4
    ensures Ends(From(s, c, paths, env, device), env, paths)
    decreases 8 - Index(s), 1
  {
    if s.ProbeStep? || s.ExtractStep? {
      AudioStepsEnd(s, c, paths, env, device);
    } else {
      FrameStepsEnd(s, c, paths, env, device);
    }
  }

  /** `FromEnds` for the audio probe and extraction. */
  lemma {:induction false} AudioStepsEnd(s: Step, c: JobConfig, paths: Targets, env: Collaborators, device: string)
    requires s.ProbeStep? || s.ExtractStep?
    ensures Ends(From(s, c, paths, env, device), env, paths)
    decreases 8 - Index(s), 0
  {
    match s
    case ProbeStep =>
      var rs := [Snapshot(ExtractingAudio, 0.0, "Checking for audio...")];
      var ks := [HasAudio(c.inputPath)];
      if env.hasAudio.Failure? {
        Aborted(env, rs, ks[0], paths);
      } else if env.hasAudio.value {
        FromEnds(ExtractStep, c, paths, env, device);
        Joined(env, rs, ks, From(ExtractStep, c, paths, env, device), paths);
      } else {
        FromEnds(FramesStep(false), c, paths, env, device);
        Joined(env, rs, ks, From(FramesStep(false), c, paths, env, device), paths);
      }
    case ExtractStep =>
      var rs := [Snapshot(ExtractingAudio, 0.5, "Extracting audio...")];
      var call := ExtractAudio(c.inputPath, paths.audio);
      if env.extractAudio.Failure? {
        Aborted(env, rs, call, paths);
      } else {
        var next := FramesStep(env.extractAudio.value);
        FromEnds(next, c, paths, env, device);
        Joined(env, rs, [call], From(next, c, paths, env, device), paths);
      }
  }

  /** `FromEnds` for reading the frames and loading the model. */
  lemma {:induction false} FrameStepsEnd(s: Step, c: JobConfig, paths: Targets, env: Collaborators, device: string)
    requires s.FramesStep? || s.ModelStep?
    ensures Ends(From(s, c, paths, env, device), env, paths)
    decreases 8 - Index(s), 0
  {
    match s
    case FramesStep(extracted) =>
      var rs := [Snapshot(ReadingFrames, 0.0, "Reading video frames...")];
      var call := ReadFrames(c.inputPath, c.maxLen, c.targetFps, c.maxRes);
      if env.readFrames.Failure? {
        Aborted(env, rs, call, paths);
      } else {
        var (frames, fps) := env.readFrames.value;
        var next := ModelStep(extracted, frames, fps);
        FromEnds(next, c, paths, env, device);
        Joined(env, rs + [Snapshot(ReadingFrames, 1.0, ReadMessage(|frames|, fps))], [call],
               From(next, c, paths, env, device), paths);
      }
    case ModelStep(extracted, frames, fps) =>
      var rs := [Snapshot(EstimatingDepth, 0.0, "Loading depth model...")];
      var call := LoadModel(c.encoder, device);
      if env.loadModel.Fail? {
        Aborted(env, rs, call, paths);
      } else {
        var next := EstimateStep(extracted, frames, fps);
        FromEnds(next, c, paths, env, device);
        Joined(env, rs, [call], From(next, c, paths, env, device), paths);
      }
  }

  /** `FromEnds` for steps 4 to 7. */
  lemma {:induction false} LateStepsEnd(s: Step, c: JobConfig, paths: Targets, env: Collaborators, device: string)
    requires Index(s) >= 4
    ensures Ends(From(s, c, paths, env, device), env, paths)
    decreases 8 - Index(s), 1
  {
    if s.EstimateStep? || s.SourceStep? {
      DepthStepsEnd(s, c, paths, env, device);
    } else {
      OutputStepsEnd(s, c, paths, env, device);
    }
  }

  /** `FromEnds` for the estimation and the source save. */
  lemma {:induction false} DepthStepsEnd(s: Step, c: JobConfig, paths: Targets, env: Collaborators, device: string)
    requires s.EstimateStep? || s.SourceStep?
    ensures Ends(From(s, c, paths, env, device), env, paths)
    decreases 8 - Index(s), 0
  {
    match s
    case EstimateStep(extracted, frames, fps) =>
      var rs := Relay(env.estimate.events);
      var call := Estimate(frames, fps, c.inputSize, device, c.fp32);
      if env.estimate.output.Failure? {
        Aborted(env, rs, call, paths);
      } else {
        var next := SourceStep(extracted, frames, env.estimate.output.value.0, env.estimate.output.value.1);
        FromEnds(next, c, paths, env, device);
        Joined(env, rs, [call], From(next, c, paths, env, device), paths);
      }
    case SourceStep(extracted, frames, depths, fps) =>
      var rs := [Snapshot(SavingSource, 0.0, "Saving source video...")];
      var call := SaveVideo(Rgb(frames), paths.src, fps, false);
      if env.saveSource.Fail? {
        Aborted(env, rs, call, paths);
      } else {
        var next := DepthStep(extracted, depths, fps);
        FromEnds(next, c, paths, env, device);
        Joined(env, rs + [Snapshot(SavingSource, 1.0, "Source video saved")], [call],
               From(next, c, paths, env, device), paths);
      }
  }

  /** `FromEnds` for the depth save and the merge. */
  lemma {:induction false} OutputStepsEnd(s: Step, c: JobConfig, paths: Targets, env: Collaborators, device: string)
    requires s.DepthStep? || s.MergeStep?
    ensures Ends(From(s, c, paths, env, device), env, paths)
    decreases 8 - Index(s), 0
  {
    match s
    case DepthStep(extracted, depths, fps) =>
      var rs := [Snapshot(SavingDepth, 0.0, "Saving depth video...")];
      var call := SaveVideo(Depth(depths), paths.depth, fps, true);
      if env.saveDepth.Fail? {
        Aborted(env, rs, call, paths);
      } else {
        var next := MergeStep(extracted);
        FromEnds(next, c, paths, env, device);
        Joined(env, rs + [Snapshot(SavingDepth, 1.0, "Depth video saved")], [call],
               From(next, c, paths, env, device), paths);
      }
    case MergeStep(extracted) =>
      var rs := [Snapshot(MergingRgbd, 0.0, "Merging RGBD video...")];
      var call := Merge(paths.src, paths.depth, paths.rgbd, if extracted then Some(paths.audio) else None);
      if env.merge.Fail? {
        Aborted(env, rs, call, paths);
      }
  }

  /** How a whole `process` call ends. It succeeds exactly when the output
      directory was created and no port raised. On success the last report
      is (COMPLETE, 1.0, "Processing complete!") and the result carries the
      configuration's source, depth and RGBD paths. On failure the last
      report is (FAILED, 0.0, text) and the result is `success=False` with
      that same text as its error, where the text is the exception's: from
      `mkdir`, in which case no port was called, or from the port called
      last, after which nothing else was called. */
  lemma RunEnds(c: JobConfig, env: Collaborators, device: string)
    ensures var t := Run(c, env, device);
      && |t.reports| > 0
      && (t.result.success <==> env.makeDir.Pass? && NoneRaised(env, t.calls))
      && (t.result.success ==>
            && Last(t.reports) == CompleteSnapshot
            && t.result.srcPath == Some(c.SrcPath()) && t.result.depthPath == Some(c.DepthPath())
            && t.result.rgbdPath == Some(c.RgbdPath()) && t.result.error == None)
      && (env.makeDir.Fail? ==>
            && t.calls == []
            && Last(t.reports) == Snapshot(Failed, 0.0, env.makeDir.error)
            && t.result == FailureResult(env.makeDir.error))
      && (env.makeDir.Pass? && !t.result.success ==>
            && StoppedAtRaise(env, t.calls)
            && Last(t.reports) == Snapshot(Failed, 0.0, ErrorOf(env, Last(t.calls)))
            && t.result == FailureResult(ErrorOf(env, Last(t.calls))))
      && FailedOnlyLast(t.reports)
  {
    if env.makeDir.Pass? {
      FromEnds(ProbeStep, c, TargetsOf(c), env, device);
    } else {
      assert Run(c, env, device).calls == [];
    }
  }
}
