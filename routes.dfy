/** The HTTP layer in front of the pipeline: the upload extension check,
    the single-flight guard and validation order of `/process`, the mapping
    of a pipeline result to a response, and the `/progress` view. The
    module's globals (`_pipeline`, `_upload_dir`, `_output_dir`,
    `_current_job_id`, `_processing`) are the fields of `Api`. */
module Routes {
  import opened Outcomes
  import opened Paths
  import opened Models
  import opened Ports
  import opened Pipeline

  /** An `HTTPException(status, detail)`. */
  datatype HttpError = HttpError(status: nat, detail: string)

  /** What a handler does: return a body, or raise an `HTTPException`. */
  datatype Reply<T> = Ok(body: T) | Rejected(error: HttpError)

  /** The extensions `/upload` accepts. */
  const VideoExtensions: set<string> := {".mp4", ".mov", ".avi", ".mkv", ".webm", ".m4v"}

  /** `str.lower()` on one character, for the characters whose lower case
      is ASCII: the ASCII capitals and the Kelvin sign, which lowers to 'k'. */
  function LowerChar(c: char): char {
    if 'A' <= c <= 'Z' then (c as int + 32) as char
    else if c == '\U{212A}' then 'k'
    else c
  }

  function Lower(s: string): (r: string)
    ensures |r| == |s|
    ensures forall i | 0 <= i < |s| :: r[i] == LowerChar(s[i])
  {
    seq(|s|, i requires 0 <= i < |s| => LowerChar(s[i]))
  }

  /** `Path(filename).suffix.lower()`. */
  function Extension(filename: string): string {
    Lower(Suffix(Name(Parse(filename))))
  }

  /** What `/upload` returns: the name, where it was saved, and its size
      (in bytes; the handler rounds it to megabytes). */
  datatype Upload = Upload(filename: string, path: string, size: nat)

  /** `upload_video`: reject a missing name, then an extension outside the
      list, and otherwise save the file under the upload directory. */
  function UploadVideo(uploadDir: Path, filename: string, content: seq<bv8>): Reply<Upload> {
    if filename == "" then Rejected(HttpError(400, "No filename provided"))
    else if Extension(filename) !in VideoExtensions then
      Rejected(HttpError(400, "Unsupported video format: " + Extension(filename)))
    else Ok(Upload(filename, Paths.Text(Join(uploadDir, filename)), |content|))
  }

  /** An upload is accepted exactly when it has a name whose extension, in
      lower case, is one of the six; every rejection is a 400. */
  lemma UploadAccepts(uploadDir: Path, filename: string, content: seq<bv8>)
    ensures var r := UploadVideo(uploadDir, filename, content);
      && (r.Ok? <==> filename != "" && Extension(filename) in VideoExtensions)
      && (r.Rejected? ==> r.error.status == 400)
      && (filename == "" ==> r.error.detail == "No filename provided")
      && (r.Ok? ==> r.body.filename == filename && r.body.size == |content|
                    && r.body.path == Paths.Text(Join(uploadDir, filename)))
  {
  }

  /** The check ignores case: names that lower to the same text are
      accepted or refused together, and a refusal names the same suffix. */
  lemma UploadIgnoresCase(uploadDir: Path, a: string, b: string, content: seq<bv8>)
    requires Lower(a) == Lower(b)
    ensures UploadVideo(uploadDir, a, content).Ok? == UploadVideo(uploadDir, b, content).Ok?
    ensures UploadVideo(uploadDir, a, content).Rejected? ==>
      UploadVideo(uploadDir, a, content) == UploadVideo(uploadDir, b, content)
  {
    ExtensionOfLower(a);
    ExtensionOfLower(b);
  }

  /** Lowering the whole name first does not change its extension: lowering
      maps '/' and '.' to themselves and nothing else to either, so the name
      is cut into components and at its last dot in the same places. */
  lemma ExtensionOfLower(a: string)
    ensures Extension(Lower(a)) == Extension(a)
  {
    ComponentsLower(a);
    var cs := Components(a);
    if cs != [] {
      assert Name(Parse(Lower(a))) == Lower(Name(Parse(a)));
    }
    SuffixLower(Name(Parse(a)));
    LowerTwice(Suffix(Name(Parse(a))));
  }

  function LowerAll(cs: seq<string>): (r: seq<string>)
    ensures |r| == |cs| && forall i | 0 <= i < |cs| :: r[i] == Lower(cs[i])
  {
    seq(|cs|, i requires 0 <= i < |cs| => Lower(cs[i]))
  }

  lemma LowerSlice(s: string, i: nat, j: nat)
    requires i <= j <= |s|
    ensures Lower(s)[i..j] == Lower(s[i..j])
  {
  }

  lemma LowerTwice(s: string)
    ensures Lower(Lower(s)) == Lower(s)
  {
  }

  lemma {:induction false} SlashIndexLower(s: string)
    ensures SlashIndex(Lower(s)) == SlashIndex(s)
  {
    if s != [] && s[0] != '/' {
      LowerSlice(s, 1, |s|);
      SlashIndexLower(s[1..]);
    }
  }

  lemma {:induction false} ComponentsLower(s: string)
    ensures Components(Lower(s)) == LowerAll(Components(s))
    decreases |s|
  {
    if s != [] {
      var i := SlashIndex(s);
      SlashIndexLower(s);
      LowerSlice(s, 0, i);
      var head, t := s[..i], Lower(s);
      var rest := if i < |s| then Components(s[i + 1..]) else [];
      var lowered := if i < |t| then Components(t[i + 1..]) else [];
      if i < |s| {
        LowerDrop(s, i + 1);
        ComponentsLower(s[i + 1..]);
        assert lowered == Components(Lower(s[i + 1..]));
      }
      assert lowered == LowerAll(rest);
      assert t != [] && SlashIndex(t) == i && t[..i] == Lower(head);
      assert Components(t) == if Lower(head) == "" || Lower(head) == "." then lowered
                              else [Lower(head)] + lowered;
      LowerKeepsDots(head);
      LowerAllCons(head, rest);
    }
  }

  lemma LowerDrop(s: string, i: nat)
    requires i <= |s|
    ensures Lower(s)[i..] == Lower(s[i..])
  {
  }

  /** Only "" lowers to "", and only "." to ".". */
  lemma LowerKeepsDots(h: string)
    ensures Lower(h) == "" <==> h == ""
    ensures Lower(h) == "." <==> h == "."
  {
    if Lower(h) == "." {
      assert LowerChar(h[0]) == '.';
    }
  }

  lemma LowerAllCons(h: string, cs: seq<string>)
    ensures LowerAll([h] + cs) == [Lower(h)] + LowerAll(cs)
  {
    assert forall i | 0 < i < |cs| + 1 :: ([h] + cs)[i] == cs[i - 1];
  }

  lemma {:induction false} LastDotLower(s: string)
    ensures LastDot(Lower(s)) == LastDot(s)
  {
    if s != [] && s[|s| - 1] != '.' {
      LowerSlice(s, 0, |s| - 1);
      LastDotLower(s[..|s| - 1]);
    }
  }

  lemma SuffixLower(name: string)
    ensures Suffix(Lower(name)) == Lower(Suffix(name))
  {
    LastDotLower(name);
    var i := LastDot(name);
    if 0 < i < |name| - 1 {
      LowerSlice(name, i, |name|);
    }
  }

  /** An upper-case suffix is accepted. */
  lemma UploadUpperCase(uploadDir: Path, content: seq<bv8>)
    ensures UploadVideo(uploadDir, "clip.MP4", content).Ok?
  {
    assert Extension("clip.MP4") == ".mp4" by {
      ComponentParses("clip.MP4");
      assert LastDot("clip.MP4") == 4;
      assert LowerChar('M') == 'm' && LowerChar('P') == 'p';
      assert Lower(".MP4") == ".mp4";
    }
  }

  lemma Mp3Extension()
    ensures Extension("clip.mp3") == ".mp3"
  {
    ComponentParses("clip.mp3");
    assert LastDot("clip.mp3") == 4;
    assert Lower(".mp3") == ".mp3";
  }

  lemma Mp3NotVideo()
    ensures ".mp3" !in VideoExtensions
  {
    assert ".mp3"[3] != ".mp4"[3] && ".mp3"[2] != ".mov"[2] && ".mp3"[1] != ".avi"[1];
    assert ".mp3"[2] != ".mkv"[2] && |".mp3"| != |".webm"| && ".mp3"[2] != ".m4v"[2];
  }

  /** An audio suffix is refused, and the detail names it. */
  lemma UploadOtherSuffix(uploadDir: Path, content: seq<bv8>)
    ensures UploadVideo(uploadDir, "clip.mp3", content) == Rejected(HttpError(400, "Unsupported video format: " + ".mp3"))
  {
    Mp3Extension();
    Mp3NotVideo();
  }

  /** A name that is only a suffix has none: pathlib takes a leading dot as
      part of the stem, so ".mp4" is refused. */
  lemma UploadDotName(uploadDir: Path, content: seq<bv8>)
    ensures UploadVideo(uploadDir, ".mp4", content) == Rejected(HttpError(400, "Unsupported video format: "))
  {
    assert Extension(".mp4") == "" by {
      ComponentParses(".mp4");
      assert LastDot(".mp4") == 0;
    }
  }

  /** The links a successful `/process` response offers. */
  datatype Downloads = Downloads(src: string, depth: string, rgbd: string)

  /** The body of a successful `/process` response. */
  datatype Processed = Processed(jobId: string, result: ResultDict, downloads: Downloads)

  /** The checks `process_video` makes before starting a job, in order: a
      job already running (409), a missing upload (404), an unknown encoder
      (400). `found` is whether the upload file exists. When all pass, the
      job is configured from the query parameters; `fp32` is not one of
      them and keeps its default. */
  function Admission(busy: bool, uploadDir: Path, outputDir: Path, filename: string, encoder: string,
                     inputSize: int, maxRes: int, maxLen: int, targetFps: int, found: bool): Reply<JobConfig> {
    if busy then Rejected(HttpError(409, "A job is already processing"))
    else if !found then Rejected(HttpError(404, "File not found: " + filename))
    else match EncoderFromValue(encoder)
      case None => Rejected(HttpError(400, "Invalid encoder: " + encoder))
      case Some(e) => Ok(JobConfig(Join(uploadDir, filename), outputDir, e, inputSize, maxRes, maxLen, targetFps, false))
  }

  /** A job is admitted exactly when none is running, the upload exists and
      the encoder is one of the three; a running job answers 409 whatever
      else is wrong with the request, and a missing file 404 whatever the
      encoder. */
  lemma AdmissionOrder(busy: bool, uploadDir: Path, outputDir: Path, filename: string, encoder: string,
                       inputSize: int, maxRes: int, maxLen: int, targetFps: int, found: bool)
    ensures var r := Admission(busy, uploadDir, outputDir, filename, encoder, inputSize, maxRes, maxLen, targetFps, found);
      && (r.Ok? <==> !busy && found && encoder in {"vits", "vitb", "vitl"})
      && (busy ==> r.error.status == 409)
      && (!busy && !found ==> r.error.status == 404)
      && (!busy && found && r.Rejected? ==> r.error.status == 400)
      && (r.Ok? ==> r.body.encoder.Value() == encoder && r.body.inputPath == Join(uploadDir, filename)
                    && r.body.outputDir == outputDir)
  {
  }

  /** The endpoint's defaults are the job descriptor's own. */
  lemma AdmissionDefaults(uploadDir: Path, outputDir: Path, filename: string)
    ensures Admission(false, uploadDir, outputDir, filename, "vitl", 518, 1280, -1, -1, true)
         == Ok(DefaultJobConfig(Join(uploadDir, filename), outputDir))
  {
  }

  /** The response to a finished job: the job id, the result and three
      download links on success; a 500 carrying the error, or "Processing
      failed" when there is none, on failure. */
  function Response(jobId: string, c: JobConfig, r: ProcessingResult): Reply<Processed> {
    if r.success then
      Ok(Processed(jobId, ResultToDict(r),
                   Downloads("/download/" + c.VideoStem() + "_src.mp4",
                             "/download/" + c.VideoStem() + "_depth.mp4",
                             "/download/" + c.VideoStem() + "_rgbd.mp4")))
    else
      Rejected(HttpError(500, if r.error.None? || r.error.value == "" then "Processing failed" else r.error.value))
  }

  /** A failed job is a 500 whose detail is never empty and is the job's
      own error whenever it has one. */
  lemma FailureResponse(jobId: string, c: JobConfig, r: ProcessingResult)
    requires !r.success
    ensures var resp := Response(jobId, c, r);
      && resp.Rejected? && resp.error.status == 500 && resp.error.detail != ""
      && (r.error.Some? && r.error.value != "" ==> resp.error.detail == r.error.value)
  {
  }

  /** Each download link names, in the output directory, the file the
      pipeline wrote: `/download/<name>` where `<name>` is the derived
      path's file name, so `output_dir / <name>` is that path. */
  lemma DownloadsNameOutputs(jobId: string, c: JobConfig, r: ProcessingResult)
    requires r.success && WellFormed(c.inputPath)
    ensures var d := Response(jobId, c, r).body.downloads;
      && d.src == "/download/" + Name(c.SrcPath()) && Join(c.outputDir, Name(c.SrcPath())) == c.SrcPath()
      && d.depth == "/download/" + Name(c.DepthPath()) && Join(c.outputDir, Name(c.DepthPath())) == c.DepthPath()
      && d.rgbd == "/download/" + Name(c.RgbdPath()) && Join(c.outputDir, Name(c.RgbdPath())) == c.RgbdPath()
  {
    var stem := c.VideoStem();
    var d := Response(jobId, c, r).body.downloads;
    assert d == Downloads("/download/" + stem + "_src.mp4", "/download/" + stem + "_depth.mp4", "/download/" + stem + "_rgbd.mp4");
    LinkNamesOutput(c, "_src.mp4", d.src);
    LinkNamesOutput(c, "_depth.mp4", d.depth);
    LinkNamesOutput(c, "_rgbd.mp4", d.rgbd);
  }

  lemma LinkNamesOutput(c: JobConfig, suffix: string, link: string)
    requires WellFormed(c.inputPath) && |suffix| > 1 && '/' !in suffix
    requires link == "/download/" + c.VideoStem() + suffix
    ensures var p := Join(c.outputDir, c.VideoStem() + suffix);
      link == "/download/" + Name(p) && Join(c.outputDir, Name(p)) == p
  {
    DerivedPath(c, suffix);
    assert "/download/" + c.VideoStem() + suffix == "/download/" + (c.VideoStem() + suffix);
  }

  /** `/progress` with no pipeline configured. */
  const Idle := ProgressDict("idle", 0.0, "")

  /** The module's globals. */
  class Api {
    var pipeline: Pipeline?
    var uploadDir: Path
    var outputDir: Path
    var currentJobId: string
    var processing: bool

    /** Import time: nothing configured, no job running. */
    constructor ()
      ensures pipeline == null && currentJobId == "" && !processing
    {
      pipeline := null;
      uploadDir := Path(false, []);
      outputDir := Path(false, []);
      currentJobId := "";
      processing := false;
    }

    /** `configure`: inject the pipeline and the two directories. */
    method Configure(p: Pipeline, upload: Path, output: Path)
      modifies this
      ensures pipeline == p && uploadDir == upload && outputDir == output
      ensures currentJobId == old(currentJobId) && processing == old(processing)
    {
      pipeline := p;
      uploadDir := upload;
      outputDir := output;
    }

    /** `get_progress`: the idle record before configuration, otherwise the
        pipeline's progress record. */
    function GetProgress(): (d: ProgressDict)
      reads this, pipeline, if pipeline == null then {} else {pipeline.progress}
      ensures pipeline == null ==> d == Idle
      ensures pipeline != null ==> d == SnapshotDict(pipeline.progress.Current())
    {
      if pipeline == null then Idle else pipeline.progress.ToDict()
    }

    /** Lines 82-105 of `process_video`: the checks, then a new job id and
        the flag set. A rejected request changes nothing. */
    method Admit(filename: string, encoder: string, inputSize: int, maxRes: int, maxLen: int, targetFps: int,
                 found: bool, jobId: string) returns (r: Reply<JobConfig>)
      modifies this
      ensures r == Admission(old(processing), uploadDir, outputDir, filename, encoder,
                             inputSize, maxRes, maxLen, targetFps, found)
      ensures r.Ok? ==> processing && currentJobId == jobId
      ensures r.Rejected? ==> processing == old(processing) && currentJobId == old(currentJobId)
      ensures pipeline == old(pipeline) && uploadDir == old(uploadDir) && outputDir == old(outputDir)
    {
      if processing {
        return Rejected(HttpError(409, "A job is already processing"));
      }
      if !found {
        return Rejected(HttpError(404, "File not found: " + filename));
      }
      var e := EncoderFromValue(encoder);
      if e.None? {
        return Rejected(HttpError(400, "Invalid encoder: " + encoder));
      }
      r := Ok(JobConfig(Join(uploadDir, filename), outputDir, e.value, inputSize, maxRes, maxLen, targetFps, false));
      currentJobId := jobId;
      processing := true;
    }

    /** Lines 111-125: clear the flag, then answer from the result. */
    method Finish(c: JobConfig, result: ProcessingResult) returns (r: Reply<Processed>)
      modifies this
      ensures !processing && currentJobId == old(currentJobId)
      ensures r == Response(currentJobId, c, result)
      ensures pipeline == old(pipeline) && uploadDir == old(uploadDir) && outputDir == old(outputDir)
    {
      processing := false;
      r := Response(currentJobId, c, result);
    }

    /** `process_video`. The flag is set by `Admit` and, as `Process` cannot
        change this object, stays set while the pipeline runs; `Finish`
        clears it. `busyDuringRun` is the flag as `Process` returns. A
        request that is not admitted never reaches the pipeline. */
    method ProcessVideo(filename: string, encoder: string, inputSize: int, maxRes: int, maxLen: int,
                        targetFps: int, found: bool, jobId: string, env: Collaborators)
      returns (r: Reply<Processed>, ghost busyDuringRun: bool)
      requires pipeline != null && pipeline.Valid()
      modifies this, pipeline, pipeline.progress
      ensures pipeline == old(pipeline) && pipeline.Valid()
      ensures uploadDir == old(uploadDir) && outputDir == old(outputDir)
      ensures var a := Admission(old(processing), uploadDir, outputDir, filename, encoder,
                                 inputSize, maxRes, maxLen, targetFps, found);
        && (a.Rejected? ==> r == Rejected(a.error) && processing == old(processing)
                            && currentJobId == old(currentJobId)
                            && pipeline.reports == old(pipeline.reports) && pipeline.calls == old(pipeline.calls))
        && (a.Ok? ==>
              var t := Run(a.body, env, pipeline.device);
              && busyDuringRun && !processing && currentJobId == jobId
              && r == Response(jobId, a.body, t.result)
              && pipeline.reports == old(pipeline.reports) + t.reports
              && pipeline.calls == old(pipeline.calls) + t.calls)
    {
      var admitted := Admit(filename, encoder, inputSize, maxRes, maxLen, targetFps, found, jobId);
      if admitted.Rejected? {
        return Rejected(admitted.error), false;
      }
      var result := pipeline.Process(admitted.body, env);
      busyDuringRun := processing;
      r := Finish(admitted.body, result);
    }
  }
}
