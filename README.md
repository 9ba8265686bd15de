# Video Depth Anything GUI: job orchestration model

This project models the job layer of the Video Depth Anything desktop GUI in
Dafny. The GUI's web front end uploads a video. The API starts one job at a
time. A pipeline controller then runs the job:

1. It probes for an audio track and extracts it.
2. It reads the frames.
3. It loads the depth network, then estimates depth and relays the
   network's per-window progress.
4. It saves the source video and a grey-scale depth video.
5. It merges the two side by side into one RGBD video.

Each step overwrites one shared progress record, `(stage, progress,
message)`. A browser polls that record and turns it into a percentage bar and
a row of stage dots.

Modules:

- `Outcomes`, `Text`, `Paths`: result and option types, and Python's decimal
  formatting of integers and of `{:.1f}` values.
- `Paths` also holds POSIX `pathlib` paths: join, name, parent, stem and suffix.
- `Models` (gui/core/models.py): the encoder and stage enumerations, `JobConfig`
  with its defaults and its four derived output paths, the mutable
  `JobProgress` record, `ProcessingResult`, and both `to_dict` projections.
- `Ports`: the four collaborators the controller calls. Each one is reduced to
  the outcome it gives for one job (a value, or an exception's text).
  `Collaborators` holds those outcomes; `PortCall` records one call and its
  arguments.
- `Pipeline` (gui/services/pipeline.py):
  - the class `Pipeline.Pipeline`, whose `Process` method runs the numbered
    steps one method each, overwriting the progress record as it goes;
  - the specification function `Run`, which gives the snapshots written, the
    port calls made and the result returned.
- `PipelineSchedule`, `PipelineProperties`, `ProgressOrder`: what every job
  does, whatever its collaborators do:
  - which ports it calls, with which arguments and in which order;
  - how it ends;
  - that its progress reports never go backwards.
- `Routes` (gui/api/routes.py): the upload extension check, the admission
  checks of `/process` in their order, the response mapping, `/progress`, and
  the class `Routes.Api` holding the module globals.
  - `_processing` is set by `Admit` and cleared by `Finish`.
  - `ProcessVideo` composes `Admit`, `Pipeline.Process` and `Finish`.
- `DepthService` (gui/services/depth_service.py):
  - the model cache keyed on the encoder;
  - the guard that refuses estimation before loading;
  - the `ProgressTqdm` counter as a class with a `while` loop for `__iter__`;
  - the rebinding of the inference module's `tqdm`, which is restored on
    every path.
- `VideoService` (gui/services/video_service.py):
  - the writer as a class;
  - the append loop, and the close on every path;
  - depth normalisation against one global minimum and maximum, truncated to
    an integer and replicated into three channels.
- `MergeService` (gui/services/merge_service.py): the ffmpeg command built
  with `+=` along the audio and silent branches, and the exit status check.
- `Frontend` (gui/frontend/js/app.js):
  - `STAGE_ORDER`, and `indexOf` as JavaScript defines it;
  - the overall percentage and the bar width;
  - the stage-dot classes, with the loop over the dots as a method;
  - the message update;
  - the polling handle, with `stopProgressPolling`;
  - lemmas tying the pipeline's reports to a bar that never moves back.

Depth normalisation truncates toward zero, as `astype(np.uint8)` does
(gui/services/video_service.py:49). A value of 10 with minimum 0 and maximum 20
becomes 127, not the 128 that rounding would give. The model follows the code,
and `VideoService.GreyFramesExample` pins down this case.

## Model

| member | source | states |
|---|---|---|
| Models.EncoderFromValue | gui/core/models.py:7-10 | `EncoderSize(value)` succeeds exactly for the three values "vits", "vitb", "vitl", and the encoder found has that value |
| Models.EncoderValueRoundTrip | gui/core/models.py:7-10 | every encoder is found again from its own value |
| Models.StageValueInjective | gui/core/models.py:13-22 | distinct stages have distinct string values |
| Models.DerivedPathsLayout | gui/core/models.py:36-54 | each derived path lies directly in `output_dir`, and its file name is the input's stem followed by `_src.mp4`, `_depth.mp4`, `_audio.aac` or `_rgbd.mp4` |
| Models.DerivedPath | gui/core/models.py:40-54 | `output_dir / (stem + suffix)` has parent `output_dir` and file name `stem + suffix` |
| Models.DerivedPathsDistinct | gui/core/models.py:40-54 | the four derived paths are pairwise distinct |
| Models.DerivedPathsDependOnStem | gui/core/models.py:36-54 | two configurations with the same input stem and output directory derive the same four paths |
| Models.SnapshotDict | gui/core/models.py:66-71 | the dictionary's stage is the stage's string value |
| Models.SnapshotDictInjective | gui/core/models.py:66-71 | `to_dict` loses nothing: equal dictionaries come from equal snapshots |
| Models.JobProgress.constructor | gui/core/models.py:60-64 | a fresh record is (UPLOADING, 0.0, "") |
| Models.JobProgress.ToDict | gui/core/models.py:66-71 | the stage is emitted as its value; progress and message are copied unchanged |
| Models.PathField | gui/core/models.py:86-88 | an absent path becomes `None`; a present one becomes its text |
| Models.ResultToDict | gui/core/models.py:83-91 | success, has_audio and error are copied verbatim, and each path goes through `PathField` |
| Models.FailureResultDict | gui/core/models.py:74-91 | a failure result built with defaults advertises no path and no audio, and carries its message as the error |
| Paths.StemAndSuffix | gui/core/models.py:36-38 | a file name is its stem followed by its suffix |
| Paths.JoinComponent | gui/core/models.py:40-42 | joining a single component appends it: the name of the join is the component and its parent is the directory |
| Paths.Suffix | gui/api/routes.py:52 | the suffix is a tail of the name: empty, or a dot followed by no further dot |
| Paths.SuffixWhen | gui/api/routes.py:52 | the suffix is non-empty exactly when the name has a dot that is neither its first nor its last character and has no dot after it |
| Text.NatTextRoundTrip | gui/services/depth_service.py:107 | the decimal text of a count reads back as that count |
| Text.IntText | gui/services/depth_service.py:107 | an integer's text is non-empty and starts with '-' exactly for negative integers |
| Text.Fixed1 | gui/services/pipeline.py:65 | `{fps:.1f}` ends in a point and one digit, and starts with '-' exactly for negative values |
| Text.Fixed1Value | gui/services/pipeline.py:65 | without its sign and point, `{fps:.1f}` reads as the magnitude in tenths, rounded to the nearest with halves up |
| Pipeline.Relay | gui/services/pipeline.py:40-41 | every estimator callback becomes one ESTIMATING_DEPTH snapshot with the callback's fraction and message, in order |
| Pipeline.Pipeline.constructor | gui/services/pipeline.py:17-29 | a fresh record; the device is "cuda" when one is available and "cpu" otherwise |
| Pipeline.Pipeline.Report | gui/services/pipeline.py:35-38 | stage, progress and message are overwritten together, and nothing else changes |
| Pipeline.Pipeline.OnDepthProgress | gui/services/pipeline.py:40-41 | the estimator's stage name is ignored, and ESTIMATING_DEPTH is recorded |
| Pipeline.Pipeline.RelayEvents | gui/services/pipeline.py:40-41 | invoking the callback once per event appends exactly `Relay(events)` |
| Pipeline.Pipeline.Abandon | gui/services/pipeline.py:112-115 | an exception is reported as (FAILED, 0.0, text) and returned as a failure with the same text |
| Pipeline.Pipeline.Process | gui/services/pipeline.py:43-115 | the result, the snapshots written and the port calls made are those of `Run` |
| Pipeline.Pipeline.ProbeAudio | gui/services/pipeline.py:47-55 | step 1 and the rest of the job follow `From(ProbeStep)` |
| Pipeline.Pipeline.ExtractTrack | gui/services/pipeline.py:52-55 | extraction and the rest of the job follow `From(ExtractStep)` |
| Pipeline.Pipeline.ReadInput | gui/services/pipeline.py:57-66 | step 2 and the rest of the job follow `From(FramesStep)` |
| Pipeline.Pipeline.LoadDepthModel | gui/services/pipeline.py:68-72 | step 3 and the rest of the job follow `From(ModelStep)` |
| Pipeline.Pipeline.EstimateDepth | gui/services/pipeline.py:74-82 | step 4 and the rest of the job follow `From(EstimateStep)` |
| Pipeline.Pipeline.SaveSource | gui/services/pipeline.py:84-87 | step 5 and the rest of the job follow `From(SourceStep)` |
| Pipeline.Pipeline.SaveDepth | gui/services/pipeline.py:89-92 | step 6 and the rest of the job follow `From(DepthStep)` |
| Pipeline.Pipeline.MergeOutputs | gui/services/pipeline.py:94-110 | step 7 follows `From(MergeStep)`: on success, "RGBD merge complete", then (COMPLETE, 1.0, "Processing complete!") and a success result |
| PipelineProperties.RunEnds | gui/services/pipeline.py:43-115 | a job succeeds exactly when `mkdir` and every port it called returned. On success the last snapshot is COMPLETE and the result carries the configuration's three paths. On failure the last snapshot is (FAILED, 0.0, e), the result is `success=False` with error e, and no port was called after the one that raised. FAILED is only ever the last snapshot |
| PipelineSchedule.RunFollows | gui/services/pipeline.py:43-110 | the calls are a prefix of the scheduled calls, and all of them on success. The reports are the whole schedule on success, and otherwise a prefix of it followed by FAILED. `has_audio` holds exactly when the job succeeded and the probe and the extraction both said yes |
| PipelineSchedule.ScheduledCallAt | gui/services/pipeline.py:47-99 | the scheduled call at each position goes to the expected port, with the arguments `Proper` gives |
| PipelineSchedule.RunCalls | gui/services/pipeline.py:47-99 | every port is called at most once and in program order, so `load_model` comes before `estimate`. Extraction happens only after a positive probe. Both saves use the fps `estimate` returned, and only the depth save has `is_depths`. The merge gets the audio path exactly when extraction succeeded |
| ProgressOrder.OpeningAdvances | gui/services/pipeline.py:48-72 | the reports up to "Loading depth model..." advance and stay at or before ESTIMATING_DEPTH |
| ProgressOrder.ClosingAdvances | gui/services/pipeline.py:85-102 | the reports from "Saving source video..." to COMPLETE advance through SAVING_SOURCE..COMPLETE |
| ProgressOrder.RelayAdvances | gui/services/pipeline.py:40-41 | relayed callbacks advance when the estimator's fractions do |
| ProgressOrder.ScheduleAdvances | gui/services/pipeline.py:48-102 | a job with no failure reports the stages in the order EXTRACTING_AUDIO, READING_FRAMES, ESTIMATING_DEPTH, SAVING_SOURCE, SAVING_DEPTH, MERGING_RGBD, COMPLETE, never going backwards and never FAILED |
| ProgressOrder.RunAdvances | gui/services/pipeline.py:43-115 | whatever the ports do, no report of a job is behind an earlier one |
| Routes.Lower | gui/api/routes.py:52 | lowercasing keeps the length and maps each character |
| Routes.UploadAccepts | gui/api/routes.py:49-68 | an upload is accepted exactly when the name is non-empty and its lowercased suffix is one of the six video extensions. Every rejection is a 400, and an empty name says "No filename provided". An accepted upload is saved under `upload_dir / filename` |
| Routes.ExtensionOfLower | gui/api/routes.py:52-54 | the suffix of the lowercased name is the lowercased suffix of the name |
| Routes.UploadIgnoresCase | gui/api/routes.py:52-54 | names whose lowercase forms are equal are accepted alike, and rejected with the same detail |
| Routes.UploadUpperCase | gui/api/routes.py:52-53 | "clip.MP4" is accepted |
| Routes.UploadOtherSuffix | gui/api/routes.py:53-54 | "clip.mp3" is rejected with "Unsupported video format: .mp3" |
| Routes.UploadDotName | gui/api/routes.py:52-54 | ".mp4" has no suffix in `pathlib`, so it is rejected |
| Routes.AdmissionOrder | gui/api/routes.py:82-102 | a job is admitted exactly when none is running, the file exists and the encoder is known. Busy gives 409 before any other check, then a missing file gives 404, then a bad encoder gives 400 |
| Routes.AdmissionDefaults | gui/api/routes.py:71-102 | the endpoint's defaults give the job descriptor's defaults |
| Routes.FailureResponse | gui/api/routes.py:124-125 | a failed job is a 500 whose detail is never empty and is the job's own error when it has one |
| Routes.DownloadsNameOutputs | gui/api/routes.py:114-123 | each download link is `/download/` followed by the file name of the matching derived path, in the output directory |
| Routes.Api.constructor | gui/api/routes.py:15-21 | no pipeline, an empty job id, not processing |
| Routes.Api.Configure | gui/api/routes.py:24-28 | the three injected values are stored and the job state is untouched |
| Routes.Api.GetProgress | gui/api/routes.py:128-133 | without a pipeline, ("idle", 0, ""); otherwise the record's `to_dict` |
| Routes.Api.Admit | gui/api/routes.py:82-105 | the flag is set, with the new job id, exactly when the request is admitted. A rejected request changes nothing |
| Routes.Api.Finish | gui/api/routes.py:109-125 | the flag is cleared and the response follows the result |
| Routes.Api.ProcessVideo | gui/api/routes.py:71-125 | a rejected request never reaches the pipeline. An admitted one runs the job once with the flag set, ends with the flag cleared, and answers with that job's result. The directories never change, and a rejection keeps the current job id |
| DepthService.ConfigForEveryEncoder | gui/services/depth_service.py:18-22 | every encoder has a configuration naming itself, and every key is an encoder value |
| DepthService.CheckpointName | gui/services/depth_service.py:39 | the checkpoint file name is a single path component |
| DepthService.CheckpointPath | gui/services/depth_service.py:39 | the checkpoint lies directly in the checkpoint directory, named `video_depth_anything_<value>.pth` |
| DepthService.CheckpointsDistinct | gui/services/depth_service.py:39 | different encoders use different checkpoints |
| DepthService.DepthService.constructor | gui/services/depth_service.py:28-31 | no model, no encoder, device "cpu" |
| DepthService.DepthService.LoadModel | gui/services/depth_service.py:33-47 | with that encoder already loaded, nothing changes, even for another device. A failed load changes nothing. Otherwise the encoder's configuration and checkpoint are loaded, and the encoder and device are recorded |
| DepthService.DepthService.Estimate | gui/services/depth_service.py:49-132 | without a model it raises "Model not loaded. Call load_model() first.". With a callback, the callbacks are the counter's reports over the windows iterated. Without one, it reports nothing. The module's `tqdm` is restored in every case |
| DepthService.ProgressTqdm.constructor | gui/services/depth_service.py:88-96 | the total is the keyword total, or else the iterable's length when it has one. The counter starts at 0 |
| DepthService.ProgressTqdm.Iterate | gui/services/depth_service.py:98-108 | the items are yielded in order, the counter grows by their number, and the reports are `Windows` from the old counter |
| DepthService.ProgressTqdm.Update | gui/services/depth_service.py:116-117 | the counter grows by `n` |
| DepthService.WindowsExtend | gui/services/depth_service.py:98-108 | one more window appends exactly its own report |
| DepthService.WindowFractions | gui/services/depth_service.py:102-108 | with a total t > 0, the k-th report is "estimating_depth" with fraction in (0, 1]. The fractions strictly increase, and the last is 1 exactly after the t-th window |
| DepthService.WindowMessages | gui/services/depth_service.py:107 | the k-th message is "Processing window k/t" |
| DepthService.NoTotalNoReports | gui/services/depth_service.py:90-95 | with no total, or a total of 0 or less, nothing is reported |
| DepthService.WindowsOrderly | gui/services/depth_service.py:98-108 | the counter's fractions are never negative and never decrease |
| DepthService.ServiceJobAdvances | gui/services/depth_service.py:98-108 | a job whose estimator is this service never reports backwards |
| VideoService.Least | gui/services/video_service.py:46 | `depths.min()` is a value of the array and no value is below it |
| VideoService.Greatest | gui/services/video_service.py:46 | `depths.max()` is a value of the array and no value is above it |
| VideoService.NormalizeRange | gui/services/video_service.py:49 | for min ≤ v ≤ max the level is in [0, 255]; min gives 0 and max gives 255 |
| VideoService.NormalizeMonotone | gui/services/video_service.py:49 | a larger depth never gets a lower level |
| VideoService.GreyFramesShape | gui/services/video_service.py:44-52 | one frame per depth map, and one pixel per value, from one global min and max. Every channel is in [0, 255], some pixel is 0 and some is 255 |
| VideoService.GreyFramesExample | gui/services/video_service.py:49 | [[0, 10], [5, 20]] gives levels [[0, 127], [63, 255]] (truncation) |
| VideoService.Writer.constructor | gui/services/video_service.py:28-34 | a new writer with the given settings, no frames, open |
| VideoService.Writer.Append | gui/services/video_service.py:40 | a frame is appended unless the append raises |
| VideoService.Writer.Close | gui/services/video_service.py:42 | the writer is closed and its frames are kept |
| VideoService.AppendAll | gui/services/video_service.py:39-40 | the frames are appended in index order, all of them, or up to the first that raises |
| VideoService.SaveVideo | gui/services/video_service.py:25-52 | the writer is opened with the output, fps, macro block 1, libx264 and CRF 18. The frames, or the grey frames for depths, are appended in order, and an empty depth array raises before any append. The writer is closed on every path |
| MergeService.SharedOptions | gui/services/merge_service.py:23-43 | both branches use the hstack filter, map `[v]` and encode with libx264 at CRF 18 |
| MergeService.AudioOptions | gui/services/merge_service.py:23-43 | `-map 2:a`, `-c:a aac` and `-shortest` are present exactly in the audio branch, and `-an` exactly in the silent one |
| MergeService.Command | gui/services/merge_service.py:17-43 | the command is the fixed head, the audio input when the file is given and exists, the branch's options, and the output |
| MergeService.CommandLayout | gui/services/merge_service.py:17-43 | the command starts `[ffmpeg, -y, -i, src, -i, depth]` and ends with the output. A third input comes exactly with audio; the silent branch has `-an` and only two inputs |
| MergeService.Merge | gui/services/merge_service.py:17-47 | if ffmpeg cannot be found, that error is raised before anything runs. Otherwise it runs with a 600-second timeout. Exit 0 returns; another status raises "ffmpeg merge failed: " followed by stderr; an exception of the run itself propagates |
| Frontend.IndexOf | gui/frontend/js/app.js:185 | `indexOf` is the first position of the entry, and -1 exactly when it is absent |
| Frontend.StageOrderNoRepeats | gui/frontend/js/app.js:7-15 | `STAGE_ORDER` has no repeated entry |
| Frontend.Distinct | gui/frontend/js/app.js:7-15 | each stage of `STAGE_ORDER` is found at its own position |
| Frontend.StageOrderMatchesPipeline | gui/frontend/js/app.js:7-15 | `STAGE_ORDER` lists the stages in the order the pipeline runs them. UPLOADING and FAILED are absent |
| Frontend.OverallOfRunningStage | gui/frontend/js/app.js:185-189 | for index i in 0..5 and progress in [0, 1], the percentage is (i + progress) / 6 * 100 and lies in [0, 100] |
| Frontend.OverallOutsideRun | gui/frontend/js/app.js:187-192 | "complete" gives 100, and a stage absent from `STAGE_ORDER` gives 0 |
| Frontend.OverallMonotone | gui/frontend/js/app.js:188-192 | the percentage grows with the stage index first and then the progress |
| Frontend.BarWidth | gui/frontend/js/app.js:193 | the width is the percentage capped at 100 |
| Frontend.DotStates | gui/frontend/js/app.js:196-205 | for stages in `STAGE_ORDER`, a dot is done exactly before the current stage and active exactly at it. When the current stage is unknown, no such dot is marked |
| Frontend.ShownMessage | gui/frontend/js/app.js:180-182 | an empty message leaves the shown one in place |
| Frontend.ProgressView.constructor | gui/frontend/js/app.js:168-174 | an empty bar, "Initializing...", and no dot marked |
| Frontend.ProgressView.Reset | gui/frontend/js/app.js:168-174 | an empty bar, "Initializing...", and every dot cleared |
| Frontend.ProgressView.Update | gui/frontend/js/app.js:176-206 | the message, the bar width and every dot's class follow the polled dictionary |
| Frontend.Percentage | gui/frontend/js/app.js:185-192 | the computed percentage is `OverallIn` of the stage |
| Frontend.Classify | gui/frontend/js/app.js:196-205 | the loop over the dots gives each dot its class |
| Frontend.Poller.constructor | gui/frontend/js/app.js:6 | no polling handle |
| Frontend.Poller.Start | gui/frontend/js/app.js:148-159 | the new interval is running and its id is kept |
| Frontend.Poller.Stop | gui/frontend/js/app.js:161-166 | the handle is null afterwards, the interval it named is cleared, and stopping twice is stopping once |
| Frontend.RunProgressBounded | gui/services/pipeline.py:43-115 | given callback fractions in [0, 1], every report of a job before FAILED has progress in [0, 1] |
| Frontend.SnapshotPercentage | gui/frontend/js/app.js:185-192 | the percentage a report shows is fixed by its stage's rank and its progress |
| Frontend.SnapshotsAdvance | gui/frontend/js/app.js:185-192 | a report that is not behind another shows at least the other's percentage |
| Frontend.BarNeverMovesBack | gui/frontend/js/app.js:176-193 | polling a job, the bar never moves back between two non-FAILED reports |

## Left out

- Windows paths: `pathlib` is modelled in its POSIX form only. POSIX
  `pathlib` also keeps a leading "//" as a root of its own; the model
  treats "//x" as "/x".
- `str.lower()` is modelled for ASCII letters and the Kelvin sign. Other
  Unicode case mappings do not change whether a suffix is one of the six
  lowercase extensions, but they do change the 400 detail: for "clip.mÖv"
  Python reports ".möv" and the model ".mÖv".
- Text.Fixed1: `{fps:.1f}` is modelled as rounding half up on the exact real
  value. Python rounds the binary double, and an exact tie to even:
  `f"{12.25:.1f}"` is "12.2" where the model gives "12.3".
- Fractions, frame rates and percentages are exact reals, not IEEE doubles
  (the progress fraction in gui/services/depth_service.py:103 and the
  overall percentage in gui/frontend/js/app.js:189). Rounding error in the
  double arithmetic is not modelled.
- `traceback.print_exc()` in the pipeline's error handler
  (gui/services/pipeline.py:114) writes to stderr only and is left out.
- Threads and `run_in_executor` are not modelled; requests and the job run
  one after another. `_report`'s three field writes are not atomic, and a
  concurrent `/progress` read can see a mix of two snapshots. The model does
  not claim atomic snapshots.
- The `size_mb` rounding of an upload, the file write, `mkdir`, `exists` and
  `FileResponse`: an upload's size is kept as its byte count. Whether a file
  exists, and whether `mkdir` raises, are parameters.
- `/health`, `/models` and `/download` are static answers or file serving, and
  are not modelled.
- Torch, `VideoDepthAnything`, `torch.load` and `infer_video_depth` are
  opaque. A load is an outcome; an inference is its window count, how far
  it iterated, and its output.
- The `tqdm` monkey-patch mechanism: only the binding of the module's
  `tqdm` name, and its restore in `finally`, are modelled.
- `CHECKPOINT_DIR` is a parameter of `LoadModel`. The project root it is built
  from is found at import time.
- DepthService.ProgressTqdm.constructor: whether the iterable has a length
  is the flag `sized`. A `TypeError` from `len` is not modelled otherwise.
- VideoService.SaveVideo: requires `is_depths` to agree with the kind of
  frames passed, as every caller does. It also requires the depth values not
  to be all equal: with max == min the code divides by zero and numpy gives
  NaN.
- Writer close raising, and imageio's encoding, are not modelled.
- `find_ffmpeg` is a parameter of `MergeService.Merge`: its result, or the
  `FileNotFoundError("ffmpeg not found")` it raises (ffmpeg_util.py:44)
  while the command is built (merge_service.py:18). The process run is
  given as its completion: an exit status and stderr, or an exception such as
  the timeout.
- DOM updates, `fetch`, `setInterval` timing, uploads, drag and drop, and
  results display in app.js.
- Frontend.DotStates: a dot whose stage is not in `STAGE_ORDER` gets index
  -1, like an unknown current stage, so it is marked active while the stage
  is unknown. The page is assumed to show only the seven ordered stages.
- gui/services/audio_service.py, gui/services/ffmpeg_util.py,
  gui/api/server.py and gui/main.py are not part of this model. The audio
  port is the outcome of `has_audio` and `extract_audio`.
