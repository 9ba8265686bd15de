/** The value types of the orchestration layer: the model-size and stage
    enumerations, the job descriptor with its derived output paths, the
    progress record and the terminal result, with their dictionary views. */
module Models {
  import opened Outcomes
  import opened Paths

  /** `EncoderSize`: the three model variants, by their string values. */
  datatype Encoder = Small | Base | Large {
    function Value(): string {
      match this
      case Small => "vits"
      case Base => "vitb"
      case Large => "vitl"
    }
  }

  /** `EncoderSize(s)`: the lookup by value, which raises for any other string. */
  function EncoderFromValue(s: string): (r: Option<Encoder>)
    ensures r.Some? ==> r.value.Value() == s
    ensures r.None? <==> forall e: Encoder :: e.Value() != s
  {
    if s == "vits" then Some(Small)
    else if s == "vitb" then Some(Base)
    else if s == "vitl" then Some(Large)
    else None
  }

  lemma EncoderValueRoundTrip(e: Encoder)
    ensures EncoderFromValue(e.Value()) == Some(e)
  {
  }

  /** `ProcessingStage`, in its declaration order (which is not the order the
      pipeline runs its stages in). */
  datatype Stage =
    | Uploading | ReadingFrames | ExtractingAudio | EstimatingDepth
    | SavingSource | SavingDepth | MergingRgbd | Complete | Failed
  {
    function Value(): string {
      match this
      case Uploading => "uploading"
      case ReadingFrames => "reading_frames"
      case ExtractingAudio => "extracting_audio"
      case EstimatingDepth => "estimating_depth"
      case SavingSource => "saving_source"
      case SavingDepth => "saving_depth"
      case MergingRgbd => "merging_rgbd"
      case Complete => "complete"
      case Failed => "failed"
    }
  }

  /** Distinct stages have distinct string values, so the value a client sees
      identifies the stage. */
  lemma StageValueInjective(a: Stage, b: Stage)
    ensures a.Value() == b.Value() ==> a == b
  {
  }

  /** `JobConfig`: one conversion request. */
  datatype JobConfig = JobConfig(
    inputPath: Path,
    outputDir: Path,
    encoder: Encoder,
    inputSize: int,
    maxRes: int,
    maxLen: int,
    targetFps: int,
    fp32: bool)
  {
    function VideoStem(): string { Stem(Name(inputPath)) }
    function SrcPath(): Path { Join(outputDir, VideoStem() + "_src.mp4") }
    function DepthPath(): Path { Join(outputDir, VideoStem() + "_depth.mp4") }
    function AudioPath(): Path { Join(outputDir, VideoStem() + "_audio.aac") }
    function RgbdPath(): Path { Join(outputDir, VideoStem() + "_rgbd.mp4") }
  }

  /** `JobConfig(input_path, output_dir)` with every other field defaulted. */
  function DefaultJobConfig(inputPath: Path, outputDir: Path): JobConfig {
    JobConfig(inputPath, outputDir, Large, 518, 1280, -1, -1, false)
  }

  /** `output_dir / (stem + suffix)` is the child of `output_dir` named
      `stem + suffix`: the stem of a parsed path holds no separator. */
  lemma DerivedPath(c: JobConfig, suffix: string)
    requires WellFormed(c.inputPath)
    requires |suffix| > 1 && '/' !in suffix
    ensures var p := Join(c.outputDir, c.VideoStem() + suffix);
      p.parts != [] && Parent(p) == c.outputDir && Name(p) == c.VideoStem() + suffix
  {
    NameOfWellFormed(c.inputPath);
    StemHasNoSlash(Name(c.inputPath));
    var n := c.VideoStem() + suffix;
    assert '/' !in n by {
      forall k | 0 <= k < |n| ensures n[k] != '/' {
        if k >= |c.VideoStem()| { assert n[k] == suffix[k - |c.VideoStem()|]; }
      }
    }
    JoinComponent(c.outputDir, n);
  }

  /** The four derived paths sit directly in `output_dir` and are named
      `stem_src.mp4`, `stem_depth.mp4`, `stem_audio.aac`, `stem_rgbd.mp4`. */
  lemma DerivedPathsLayout(c: JobConfig)
    requires WellFormed(c.inputPath)
    ensures c.SrcPath().parts != [] && Parent(c.SrcPath()) == c.outputDir && Name(c.SrcPath()) == c.VideoStem() + "_src.mp4"
    ensures c.DepthPath().parts != [] && Parent(c.DepthPath()) == c.outputDir && Name(c.DepthPath()) == c.VideoStem() + "_depth.mp4"
    ensures c.AudioPath().parts != [] && Parent(c.AudioPath()) == c.outputDir && Name(c.AudioPath()) == c.VideoStem() + "_audio.aac"
    ensures c.RgbdPath().parts != [] && Parent(c.RgbdPath()) == c.outputDir && Name(c.RgbdPath()) == c.VideoStem() + "_rgbd.mp4"
  {
    DerivedPath(c, "_src.mp4");
    DerivedPath(c, "_depth.mp4");
    DerivedPath(c, "_audio.aac");
    DerivedPath(c, "_rgbd.mp4");
  }

  /** Equal prefixes: the strings are equal only when the tails are. */
  lemma SameStemDistinctSuffix(stem: string, a: string, b: string)
    requires a != b
    ensures stem + a != stem + b
  {
    assert (stem + a)[|stem|..] == a;
    assert (stem + b)[|stem|..] == b;
  }

  /** The four output files of a job are pairwise distinct, so no stage
      overwrites another stage's artifact. */
  lemma DerivedPathsDistinct(c: JobConfig)
    requires WellFormed(c.inputPath)
    ensures c.SrcPath() != c.DepthPath() && c.SrcPath() != c.AudioPath() && c.SrcPath() != c.RgbdPath()
    ensures c.DepthPath() != c.AudioPath() && c.DepthPath() != c.RgbdPath()
    ensures c.AudioPath() != c.RgbdPath()
  {
    DerivedPathsLayout(c);
    var s := c.VideoStem();
    SameStemDistinctSuffix(s, "_src.mp4", "_depth.mp4");
    SameStemDistinctSuffix(s, "_src.mp4", "_audio.aac");
    SameStemDistinctSuffix(s, "_src.mp4", "_rgbd.mp4");
    SameStemDistinctSuffix(s, "_depth.mp4", "_audio.aac");
    SameStemDistinctSuffix(s, "_depth.mp4", "_rgbd.mp4");
    SameStemDistinctSuffix(s, "_audio.aac", "_rgbd.mp4");
  }

  /** The derived paths depend on the input only through its stem: two
      requests for `a/clip.mp4` and `b/clip.mov` into one directory write the
      same four files. */
  lemma DerivedPathsDependOnStem(c: JobConfig, d: JobConfig)
    requires c.VideoStem() == d.VideoStem() && c.outputDir == d.outputDir
    ensures c.SrcPath() == d.SrcPath() && c.DepthPath() == d.DepthPath()
    ensures c.AudioPath() == d.AudioPath() && c.RgbdPath() == d.RgbdPath()
  {
  }

  /** One value of the progress record. */
  datatype Snapshot = Snapshot(stage: Stage, progress: real, message: string)

  /** `JobProgress.to_dict()`. */
  datatype ProgressDict = ProgressDict(stage: string, progress: real, message: string)

  function SnapshotDict(s: Snapshot): (d: ProgressDict)
    ensures EncodesStage(d.stage, s.stage)
  {
    ProgressDict(s.stage.Value(), s.progress, s.message)
  }

  predicate EncodesStage(value: string, s: Stage) {
    value == s.Value()
  }

  /** The dictionary view loses nothing: equal dictionaries come from equal
      snapshots. */
  lemma SnapshotDictInjective(a: Snapshot, b: Snapshot)
    ensures SnapshotDict(a) == SnapshotDict(b) ==> a == b
  {
    StageValueInjective(a.stage, b.stage);
  }

  /** `JobProgress`: the mutable progress record the pipeline overwrites and
      the progress endpoint reads. */
  class JobProgress {
    var stage: Stage
    var progress: real
    var message: string

    constructor ()
      ensures Current() == Snapshot(Uploading, 0.0, "")
    {
      stage := Uploading;
      progress := 0.0;
      message := "";
    }

    function Current(): Snapshot
      reads this
    {
      Snapshot(stage, progress, message)
    }

    function ToDict(): (d: ProgressDict)
      reads this
      ensures d == SnapshotDict(Current())
      ensures EncodesStage(d.stage, stage) && d.progress == progress && d.message == message
    {
      ProgressDict(stage.Value(), progress, message)
    }
  }

  /** `ProcessingResult`. */
  datatype ProcessingResult = ProcessingResult(
    success: bool,
    srcPath: Option<Path>,
    depthPath: Option<Path>,
    rgbdPath: Option<Path>,
    hasAudio: bool,
    error: Option<string>)

  /** `ProcessingResult(success=False, error=message)`: every other field at
      its default. */
  function FailureResult(message: string): ProcessingResult {
    ProcessingResult(false, None, None, None, false, Some(message))
  }

  /** `ProcessingResult.to_dict()`. */
  datatype ResultDict = ResultDict(
    success: bool,
    srcPath: Option<string>,
    depthPath: Option<string>,
    rgbdPath: Option<string>,
    hasAudio: bool,
    error: Option<string>)

  function PathField(p: Option<Path>): (r: Option<string>)
    ensures r.Some? <==> p.Some?
    ensures p.Some? ==> r.value == Text(p.value)
  {
    match p
    case None => None
    case Some(q) => Some(Text(q))
  }

  function ResultToDict(r: ProcessingResult): (d: ResultDict)
    ensures d.success == r.success && d.hasAudio == r.hasAudio && d.error == r.error
    ensures d.srcPath == PathField(r.srcPath) && d.depthPath == PathField(r.depthPath)
    ensures d.rgbdPath == PathField(r.rgbdPath)
  {
    ResultDict(r.success, PathField(r.srcPath), PathField(r.depthPath), PathField(r.rgbdPath),
               r.hasAudio, r.error)
  }

  /** A failure result advertises no output file and no audio, and carries
      its message as the error. */
  lemma FailureResultDict(message: string)
    ensures var d := ResultToDict(FailureResult(message));
      !d.success && d.srcPath.None? && d.depthPath.None? && d.rgbdPath.None?
      && !d.hasAudio && d.error == Some(message)
  {
  }
}
