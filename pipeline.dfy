/** The pipeline controller: it owns the progress record, calls the ports in a
    fixed order, relays the estimator's progress, and turns any exception
    into a FAILED snapshot and a failure result. `Run` is the specification
    of one `process` call; the class `Pipeline` is the stateful controller,
    proved to follow it. */
module Pipeline {
  import opened Outcomes
  import opened Paths
  import opened Text
  import opened Models
  import opened Ports

  /** Everything one job does: the snapshots written to the progress record,
      in order, the port calls made, in order, and the result returned. */
  datatype Trace = Trace(reports: seq<Snapshot>, calls: seq<PortCall>, result: ProcessingResult)

  /** The `except` branch: report FAILED with the exception's text and
      return a failure result carrying the same text. */
  function Abort(reports: seq<Snapshot>, calls: seq<PortCall>, error: string): Trace {
    Trace(reports + [Snapshot(Failed, 0.0, error)], calls, FailureResult(error))
  }

  /** Steps already taken, followed by the rest of the job. */
  function Then(reports: seq<Snapshot>, calls: seq<PortCall>, rest: Trace): Trace {
    Trace(reports + rest.reports, calls + rest.calls, rest.result)
  }

  /** `_on_depth_progress`: every estimator callback becomes an
      ESTIMATING_DEPTH snapshot with the estimator's fraction and message. */
  function Relay(events: seq<ProgressEvent>): (rs: seq<Snapshot>)
    ensures |rs| == |events|
    ensures forall i | 0 <= i < |events| ::
      rs[i] == Snapshot(EstimatingDepth, events[i].fraction, events[i].message)
  {
    if events == [] then []
    else Relay(events[..|events| - 1]) + [Snapshot(EstimatingDepth, events[|events| - 1].fraction, events[|events| - 1].message)]
  }

  function ReadMessage(count: nat, fps: real): string {
    "Read " + NatText(count) + " frames at " + Fixed1(fps) + " fps"
  }

  /** Appending in two steps is appending once: what lets a step's history
      be split into the part it reported and the part its successor did. */
  lemma Regrouped<T>(a: seq<T>, b: seq<T>, c: seq<T>)
    ensures (a + b) + c == a + (b + c)
  {
  }

  lemma Regrouped3<T>(a: seq<T>, b: seq<T>, c: seq<T>, d: seq<T>)
    ensures ((a + b) + c) + d == a + ((b + c) + d)
  {
  }

  const CompleteSnapshot := Snapshot(Complete, 1.0, "Processing complete!")

  /** The four paths `process` hands to the ports, each one a property of
      the configuration. */
  datatype Targets = Targets(src: Path, depth: Path, audio: Path, rgbd: Path)

  function TargetsOf(c: JobConfig): Targets {
    Targets(c.SrcPath(), c.DepthPath(), c.AudioPath(), c.RgbdPath())
  }

  /** A point in the body of the `try`: the numbered step about to run,
      with the values the earlier steps produced. */
  datatype Step =
    | ProbeStep
    | ExtractStep
    | FramesStep(extracted: bool)
    | ModelStep(extracted: bool, frames: seq<Image>, fps: real)
    | EstimateStep(extracted: bool, frames: seq<Image>, fps: real)
    | SourceStep(extracted: bool, frames: seq<Image>, depths: seq<DepthMap>, fps: real)
    | DepthStep(extracted: bool, depths: seq<DepthMap>, fps: real)
    | MergeStep(extracted: bool)

  /** How many steps lie behind `s`. */
  function Index(s: Step): nat {
    match s
    case ProbeStep => 0
    case ExtractStep => 1
    case FramesStep(_) => 2
    case ModelStep(_, _, _) => 3
    case EstimateStep(_, _, _) => 4
    case SourceStep(_, _, _, _) => 5
    case DepthStep(_, _, _) => 6
    case MergeStep(_) => 7
  }

  /** `Pipeline.process(config)` against the given collaborators. */
  function Run(c: JobConfig, env: Collaborators, device: string): Trace {
    if env.makeDir.Fail? then Abort([], [], env.makeDir.error)
    else From(ProbeStep, c, TargetsOf(c), env, device)
  }

  /** The rest of the `try` body from step `s` on. */
  function From(s: Step, c: JobConfig, paths: Targets, env: Collaborators, device: string): Trace
    decreases 8 - Index(s)
  {
    match s
    case ProbeStep =>
      // 1. probe for audio; extract only when the probe said yes
      var rs := [Snapshot(ExtractingAudio, 0.0, "Checking for audio...")];
      var ks := [HasAudio(c.inputPath)];
      (match env.hasAudio
      case Failure(e) => Abort(rs, ks, e)
      case Success(present) =>
        Then(rs, ks, if present then From(ExtractStep, c, paths, env, device)
                     else From(FramesStep(false), c, paths, env, device)))
    case ExtractStep =>
      var rs := [Snapshot(ExtractingAudio, 0.5, "Extracting audio...")];
      var ks := [ExtractAudio(c.inputPath, paths.audio)];
      (match env.extractAudio
      case Failure(e) => Abort(rs, ks, e)
      case Success(extracted) => Then(rs, ks, From(FramesStep(extracted), c, paths, env, device)))
    case FramesStep(extracted) =>
      // 2. decode the frames
      var rs := [Snapshot(ReadingFrames, 0.0, "Reading video frames...")];
      var ks := [ReadFrames(c.inputPath, c.maxLen, c.targetFps, c.maxRes)];
      (match env.readFrames
      case Failure(e) => Abort(rs, ks, e)
      case Success(decoded) =>
        Then(rs + [Snapshot(ReadingFrames, 1.0, ReadMessage(|decoded.0|, decoded.1))], ks,
             From(ModelStep(extracted, decoded.0, decoded.1), c, paths, env, device)))
    case ModelStep(extracted, frames, fps) =>
      // 3. load the model
      var rs := [Snapshot(EstimatingDepth, 0.0, "Loading depth model...")];
      var ks := [LoadModel(c.encoder, device)];
      if env.loadModel.Fail? then Abort(rs, ks, env.loadModel.error)
      else Then(rs, ks, From(EstimateStep(extracted, frames, fps), c, paths, env, device))
    case EstimateStep(extracted, frames, fps) =>
      // 4. estimate, relaying the estimator's progress
      var rs := Relay(env.estimate.events);
      var ks := [Estimate(frames, fps, c.inputSize, device, c.fp32)];
      (match env.estimate.output
      case Failure(e) => Abort(rs, ks, e)
      case Success(estimated) =>
        Then(rs, ks, From(SourceStep(extracted, frames, estimated.0, estimated.1), c, paths, env, device)))
    case SourceStep(extracted, frames, depths, fps) =>
      // 5. save the source video at the estimator's frame rate
      var rs := [Snapshot(SavingSource, 0.0, "Saving source video...")];
      var ks := [SaveVideo(Rgb(frames), paths.src, fps, false)];
      if env.saveSource.Fail? then Abort(rs, ks, env.saveSource.error)
      else Then(rs + [Snapshot(SavingSource, 1.0, "Source video saved")], ks,
                From(DepthStep(extracted, depths, fps), c, paths, env, device))
    case DepthStep(extracted, depths, fps) =>
      // 6. save the depth video
      var rs := [Snapshot(SavingDepth, 0.0, "Saving depth video...")];
      var ks := [SaveVideo(Depth(depths), paths.depth, fps, true)];
      if env.saveDepth.Fail? then Abort(rs, ks, env.saveDepth.error)
      else Then(rs + [Snapshot(SavingDepth, 1.0, "Depth video saved")], ks,
                From(MergeStep(extracted), c, paths, env, device))
    case MergeStep(extracted) =>
      // 7. merge, with the extracted audio track if there is one
      var rs := [Snapshot(MergingRgbd, 0.0, "Merging RGBD video...")];
      var ks := [Merge(paths.src, paths.depth, paths.rgbd, if extracted then Some(paths.audio) else None)];
      if env.merge.Fail? then Abort(rs, ks, env.merge.error)
      else Trace(rs + [Snapshot(MergingRgbd, 1.0, "RGBD merge complete"), CompleteSnapshot], ks,
                 ProcessingResult(true, Some(paths.src), Some(paths.depth), Some(paths.rgbd), extracted, None))
  }

  /** `Pipeline`: the controller and its progress record. `reports` is the
      history of every snapshot the record has held, starting with the fresh
      one; `calls` is every port call made. Both exist for the contracts only:
      the object itself keeps just the latest snapshot. */
  class Pipeline {
    const progress: JobProgress
    const device: string
    ghost var reports: seq<Snapshot>
    ghost var calls: seq<PortCall>

    ghost predicate Valid()
      reads this, progress
    {
      |reports| > 0 && progress.Current() == reports[|reports| - 1]
    }

    /** `Pipeline(...)`: a fresh progress record; the device is "cuda" when
        one is available and "cpu" otherwise. */
    constructor (cudaAvailable: bool)
      ensures Valid() && fresh(progress)
      ensures device == (if cudaAvailable then "cuda" else "cpu")
      ensures reports == [Snapshot(Uploading, 0.0, "")] && calls == []
    {
      progress := new JobProgress();
      device := if cudaAvailable then "cuda" else "cpu";
      reports := [Snapshot(Uploading, 0.0, "")];
      calls := [];
    }

    /** `_report`: overwrite stage, progress and message together. */
    method Report(stage: Stage, fraction: real, message: string)
      requires Valid()
      modifies this, progress
      ensures Valid()
      ensures progress.Current() == Snapshot(stage, fraction, message)
      ensures reports == old(reports) + [Snapshot(stage, fraction, message)]
      ensures calls == old(calls)
    {
      progress.stage := stage;
      progress.progress := fraction;
      progress.message := message;
      reports := reports + [Snapshot(stage, fraction, message)];
    }

    /** `_on_depth_progress`: the estimator's stage name is ignored. */
    method OnDepthProgress(stageName: string, fraction: real, message: string)
      requires Valid()
      modifies this, progress
      ensures Valid()
      ensures progress.Current() == Snapshot(EstimatingDepth, fraction, message)
      ensures reports == old(reports) + [Snapshot(EstimatingDepth, fraction, message)]
      ensures calls == old(calls)
    {
      Report(EstimatingDepth, fraction, message);
    }

    /** The estimator invoking the callback once per event, in order. */
    method RelayEvents(events: seq<ProgressEvent>)
      requires Valid()
      modifies this, progress
      ensures Valid()
      ensures reports == old(reports) + Relay(events) && calls == old(calls)
    {
      var i := 0;
      while i < |events|
        invariant 0 <= i <= |events|
        invariant Valid()
        invariant reports == old(reports) + Relay(events[..i]) && calls == old(calls)
      {
        OnDepthProgress(events[i].stage, events[i].fraction, events[i].message);
        assert events[..i + 1][..i] == events[..i];
        i := i + 1;
      }
      assert events[..i] == events;
    }

    /** The `except Exception as e` branch. */
    method Abandon(error: string) returns (result: ProcessingResult)
      requires Valid()
      modifies this, progress
      ensures Valid()
      ensures reports == old(reports) + [Snapshot(Failed, 0.0, error)] && calls == old(calls)
      ensures result == FailureResult(error)
    {
      Report(Failed, 0.0, error);
      result := FailureResult(error);
    }

    /** `process(config)`. The body of the `try` is split below into its
        numbered steps, each handing the values it produced to the next. */
    method Process(config: JobConfig, env: Collaborators) returns (result: ProcessingResult)
      requires Valid()
      modifies this, progress
      ensures Valid()
      ensures var t := Run(config, env, device);
        result == t.result && reports == old(reports) + t.reports && calls == old(calls) + t.calls
    {
      if env.makeDir.Fail? {
        result := Abandon(env.makeDir.error);
        return;
      }
      result := ProbeAudio(config, TargetsOf(config), env);
    }

    /** Step 1: ask the audio port whether the input has an audio track. */
    method ProbeAudio(config: JobConfig, paths: Targets, env: Collaborators) returns (result: ProcessingResult)
      requires Valid()
      modifies this, progress
      ensures Valid()
      ensures var t := From(ProbeStep, config, paths, env, device);
        result == t.result && reports == old(reports) + t.reports && calls == old(calls) + t.calls
    {
      ghost var r0, k0 := reports, calls;
      Report(ExtractingAudio, 0.0, "Checking for audio...");
      calls := calls + [HasAudio(config.inputPath)];
      if env.hasAudio.Failure? {
        result := Abandon(env.hasAudio.error);
        Regrouped(r0, [Snapshot(ExtractingAudio, 0.0, "Checking for audio...")],
                  [Snapshot(Failed, 0.0, env.hasAudio.error)]);
      } else {
        var rest := if env.hasAudio.value then From(ExtractStep, config, paths, env, device)
                    else From(FramesStep(false), config, paths, env, device);
        if env.hasAudio.value {
          result := ExtractTrack(config, paths, env);
        } else {
          result := ReadInput(config, paths, env, false);
        }
        Regrouped(r0, [Snapshot(ExtractingAudio, 0.0, "Checking for audio...")], rest.reports);
        Regrouped(k0, [HasAudio(config.inputPath)], rest.calls);
      }
    }

    /** Step 1, continued: extract the track the probe found. */
    method ExtractTrack(config: JobConfig, paths: Targets, env: Collaborators) returns (result: ProcessingResult)
      requires Valid()
      modifies this, progress
      ensures Valid()
      ensures var t := From(ExtractStep, config, paths, env, device);
        result == t.result && reports == old(reports) + t.reports && calls == old(calls) + t.calls
    {
      ghost var r0, k0 := reports, calls;
      Report(ExtractingAudio, 0.5, "Extracting audio...");
      calls := calls + [ExtractAudio(config.inputPath, paths.audio)];
      if env.extractAudio.Failure? {
        result := Abandon(env.extractAudio.error);
        Regrouped(r0, [Snapshot(ExtractingAudio, 0.5, "Extracting audio...")],
                  [Snapshot(Failed, 0.0, env.extractAudio.error)]);
        return;
      }
      result := ReadInput(config, paths, env, env.extractAudio.value);
      ghost var rest := From(FramesStep(env.extractAudio.value), config, paths, env, device);
      Regrouped(r0, [Snapshot(ExtractingAudio, 0.5, "Extracting audio...")], rest.reports);
      Regrouped(k0, [ExtractAudio(config.inputPath, paths.audio)], rest.calls);
    }

    /** Step 2: decode the frames. */
    method ReadInput(config: JobConfig, paths: Targets, env: Collaborators, audioExtracted: bool)
      returns (result: ProcessingResult)
      requires Valid()
      modifies this, progress
      ensures Valid()
      ensures var t := From(FramesStep(audioExtracted), config, paths, env, device);
        result == t.result && reports == old(reports) + t.reports && calls == old(calls) + t.calls
    {
      ghost var r0, k0 := reports, calls;
      Report(ReadingFrames, 0.0, "Reading video frames...");
      calls := calls + [ReadFrames(config.inputPath, config.maxLen, config.targetFps, config.maxRes)];
      if env.readFrames.Failure? {
        result := Abandon(env.readFrames.error);
        Regrouped(r0, [Snapshot(ReadingFrames, 0.0, "Reading video frames...")],
                  [Snapshot(Failed, 0.0, env.readFrames.error)]);
        return;
      }
      var frames, fps := env.readFrames.value.0, env.readFrames.value.1;
      Report(ReadingFrames, 1.0, ReadMessage(|frames|, fps));
      result := LoadDepthModel(config, paths, env, audioExtracted, frames, fps);
      ghost var rest := From(ModelStep(audioExtracted, frames, fps), config, paths, env, device);
      Regrouped3(r0, [Snapshot(ReadingFrames, 0.0, "Reading video frames...")],
                 [Snapshot(ReadingFrames, 1.0, ReadMessage(|frames|, fps))], rest.reports);
      Regrouped(k0, [ReadFrames(config.inputPath, config.maxLen, config.targetFps, config.maxRes)], rest.calls);
    }

    /** Step 3: load the depth model on this pipeline's device. */
    method LoadDepthModel(config: JobConfig, paths: Targets, env: Collaborators, audioExtracted: bool,
                          frames: seq<Image>, fps: real)
      returns (result: ProcessingResult)
      requires Valid()
      modifies this, progress
      ensures Valid()
      ensures var t := From(ModelStep(audioExtracted, frames, fps), config, paths, env, device);
        result == t.result && reports == old(reports) + t.reports && calls == old(calls) + t.calls
    {
      ghost var r0, k0 := reports, calls;
      Report(EstimatingDepth, 0.0, "Loading depth model...");
      calls := calls + [LoadModel(config.encoder, device)];
      if env.loadModel.Fail? {
        result := Abandon(env.loadModel.error);
        Regrouped(r0, [Snapshot(EstimatingDepth, 0.0, "Loading depth model...")],
                  [Snapshot(Failed, 0.0, env.loadModel.error)]);
        return;
      }
      result := EstimateDepth(config, paths, env, audioExtracted, frames, fps);
      ghost var rest := From(EstimateStep(audioExtracted, frames, fps), config, paths, env, device);
      Regrouped(r0, [Snapshot(EstimatingDepth, 0.0, "Loading depth model...")], rest.reports);
      Regrouped(k0, [LoadModel(config.encoder, device)], rest.calls);
    }

    /** Step 4: estimate, with `OnDepthProgress` as the callback. */
    method EstimateDepth(config: JobConfig, paths: Targets, env: Collaborators, audioExtracted: bool,
                         frames: seq<Image>, fps: real)
      returns (result: ProcessingResult)
      requires Valid()
      modifies this, progress
      ensures Valid()
      ensures var t := From(EstimateStep(audioExtracted, frames, fps), config, paths, env, device);
        result == t.result && reports == old(reports) + t.reports && calls == old(calls) + t.calls
    {
      ghost var r0, k0 := reports, calls;
      calls := calls + [Estimate(frames, fps, config.inputSize, device, config.fp32)];
      RelayEvents(env.estimate.events);
      if env.estimate.output.Failure? {
        result := Abandon(env.estimate.output.error);
        Regrouped(r0, Relay(env.estimate.events), [Snapshot(Failed, 0.0, env.estimate.output.error)]);
        return;
      }
      var depths, estimatedFps := env.estimate.output.value.0, env.estimate.output.value.1;
      result := SaveSource(config, paths, env, audioExtracted, frames, depths, estimatedFps);
      ghost var rest := From(SourceStep(audioExtracted, frames, depths, estimatedFps), config, paths, env, device);
      Regrouped(r0, Relay(env.estimate.events), rest.reports);
      Regrouped(k0, [Estimate(frames, fps, config.inputSize, device, config.fp32)], rest.calls);
    }

    /** Step 5: save the source video. */
    method SaveSource(config: JobConfig, paths: Targets, env: Collaborators, audioExtracted: bool,
                      frames: seq<Image>, depths: seq<DepthMap>, fps: real)
      returns (result: ProcessingResult)
      requires Valid()
      modifies this, progress
      ensures Valid()
      ensures var t := From(SourceStep(audioExtracted, frames, depths, fps), config, paths, env, device);
        result == t.result && reports == old(reports) + t.reports && calls == old(calls) + t.calls
    {
      ghost var r0, k0 := reports, calls;
      Report(SavingSource, 0.0, "Saving source video...");
      calls := calls + [SaveVideo(Rgb(frames), paths.src, fps, false)];
      if env.saveSource.Fail? {
        result := Abandon(env.saveSource.error);
        Regrouped(r0, [Snapshot(SavingSource, 0.0, "Saving source video...")],
                  [Snapshot(Failed, 0.0, env.saveSource.error)]);
        return;
      }
      Report(SavingSource, 1.0, "Source video saved");
      result := SaveDepth(config, paths, env, audioExtracted, depths, fps);
      ghost var rest := From(DepthStep(audioExtracted, depths, fps), config, paths, env, device);
      Regrouped3(r0, [Snapshot(SavingSource, 0.0, "Saving source video...")],
                 [Snapshot(SavingSource, 1.0, "Source video saved")], rest.reports);
      Regrouped(k0, [SaveVideo(Rgb(frames), paths.src, fps, false)], rest.calls);
    }

    /** Step 6: save the depth video. */
    method SaveDepth(config: JobConfig, paths: Targets, env: Collaborators, audioExtracted: bool,
                     depths: seq<DepthMap>, fps: real)
      returns (result: ProcessingResult)
      requires Valid()
      modifies this, progress
      ensures Valid()
      ensures var t := From(DepthStep(audioExtracted, depths, fps), config, paths, env, device);
        result == t.result && reports == old(reports) + t.reports && calls == old(calls) + t.calls
    {
      ghost var r0, k0 := reports, calls;
      Report(SavingDepth, 0.0, "Saving depth video...");
      calls := calls + [SaveVideo(Depth(depths), paths.depth, fps, true)];
      if env.saveDepth.Fail? {
        result := Abandon(env.saveDepth.error);
        Regrouped(r0, [Snapshot(SavingDepth, 0.0, "Saving depth video...")],
                  [Snapshot(Failed, 0.0, env.saveDepth.error)]);
        return;
      }
      Report(SavingDepth, 1.0, "Depth video saved");
      result := MergeOutputs(config, paths, env, audioExtracted);
      ghost var rest := From(MergeStep(audioExtracted), config, paths, env, device);
      Regrouped3(r0, [Snapshot(SavingDepth, 0.0, "Saving depth video...")],
                 [Snapshot(SavingDepth, 1.0, "Depth video saved")], rest.reports);
      Regrouped(k0, [SaveVideo(Depth(depths), paths.depth, fps, true)], rest.calls);
    }

    /** Step 7: merge, then complete. */
    method MergeOutputs(config: JobConfig, paths: Targets, env: Collaborators, audioExtracted: bool)
      returns (result: ProcessingResult)
      requires Valid()
      modifies this, progress
      ensures Valid()
      ensures var t := From(MergeStep(audioExtracted), config, paths, env, device);
        result == t.result && reports == old(reports) + t.reports && calls == old(calls) + t.calls
    {
      ghost var r0 := reports;
      Report(MergingRgbd, 0.0, "Merging RGBD video...");
      var audioForMerge := if audioExtracted then Some(paths.audio) else None;
      calls := calls + [Merge(paths.src, paths.depth, paths.rgbd, audioForMerge)];
      if env.merge.Fail? {
        result := Abandon(env.merge.error);
        Regrouped(r0, [Snapshot(MergingRgbd, 0.0, "Merging RGBD video...")],
                  [Snapshot(Failed, 0.0, env.merge.error)]);
        return;
      }
      Report(MergingRgbd, 1.0, "RGBD merge complete");
      Report(Complete, 1.0, "Processing complete!");
      result := ProcessingResult(true, Some(paths.src), Some(paths.depth), Some(paths.rgbd), audioExtracted, None);
    }
  }
}
