/** The four capability ports the pipeline is written against (frame I/O,
    audio I/O, depth estimation, RGBD merge). A port is represented by the
    outcome it gives for one job: the value it returns, or the text of the
    exception it raises. The pipeline records each call it makes, with its
    arguments, so contracts can say which ports were called and how. */
module Ports {
  import opened Outcomes
  import opened Paths
  import opened Models

  /** Channel values of one pixel. */
  type Pixel = seq<int>
  /** One decoded frame, pixels in raster order. */
  type Image = seq<Pixel>
  /** One frame of relative depth values, in raster order. */
  type DepthMap = seq<real>

  /** What `save_video` is given: decoded frames or depth maps. */
  datatype FrameData = Rgb(images: seq<Image>) | Depth(maps: seq<DepthMap>)

  /** One `on_progress(stage, fraction, message)` call made by the estimator. */
  datatype ProgressEvent = ProgressEvent(stage: string, fraction: real, message: string)

  /** One call from the pipeline into a port, with its arguments. */
  datatype PortCall =
    | HasAudio(video: Path)
    | ExtractAudio(video: Path, output: Path)
    | ReadFrames(video: Path, maxLen: int, targetFps: int, maxRes: int)
    | LoadModel(encoder: Encoder, device: string)
    | Estimate(images: seq<Image>, fps: real, inputSize: int, device: string, fp32: bool)
    | SaveVideo(data: FrameData, output: Path, fps: real, isDepths: bool)
    | Merge(src: Path, depth: Path, output: Path, audio: Option<Path>)

  /** What `estimate` does for this job: the progress callbacks it makes, in
      order, and then its return value or the exception it raises. */
  datatype EstimatorRun = EstimatorRun(events: seq<ProgressEvent>, output: Result<(seq<DepthMap>, real)>)

  /** The behaviour of the collaborators for one job. `has_audio` and
      `extract_audio` catch their own expected failures and return false; a
      Failure here is an exception they do not catch. */
  datatype Collaborators = Collaborators(
    makeDir: Outcome,
    hasAudio: Result<bool>,
    extractAudio: Result<bool>,
    readFrames: Result<(seq<Image>, real)>,
    loadModel: Outcome,
    estimate: EstimatorRun,
    saveSource: Outcome,
    saveDepth: Outcome,
    merge: Outcome)

  /** Whether the collaborator raised on this call. */
  predicate Raised(env: Collaborators, call: PortCall) {
    match call
    case HasAudio(_) => env.hasAudio.Failure?
    case ExtractAudio(_, _) => env.extractAudio.Failure?
    case ReadFrames(_, _, _, _) => env.readFrames.Failure?
    case LoadModel(_, _) => env.loadModel.Fail?
    case Estimate(_, _, _, _, _) => env.estimate.output.Failure?
    case SaveVideo(_, _, _, isDepths) => if isDepths then env.saveDepth.Fail? else env.saveSource.Fail?
    case Merge(_, _, _, _) => env.merge.Fail?
  }

  /** The text of the exception the collaborator raised on this call. */
  function ErrorOf(env: Collaborators, call: PortCall): string
    requires Raised(env, call)
  {
    match call
    case HasAudio(_) => env.hasAudio.error
    case ExtractAudio(_, _) => env.extractAudio.error
    case ReadFrames(_, _, _, _) => env.readFrames.error
    case LoadModel(_, _) => env.loadModel.error
    case Estimate(_, _, _, _, _) => env.estimate.output.error
    case SaveVideo(_, _, _, isDepths) => if isDepths then env.saveDepth.error else env.saveSource.error
    case Merge(_, _, _, _) => env.merge.error
  }
}
