/** The depth estimator port's implementation: a service that loads one
    network at a time, caching it by encoder, and that turns the network's
    window-by-window progress bar into progress callbacks by substituting
    its own counter for the progress-bar class the inference code uses. The
    network, its checkpoint loading and its inference are opaque: each is
    represented by what it gives for one call. */
module DepthService {
  import opened Outcomes
  import opened Paths
  import opened Text
  import opened Models
  import opened Ports
  import opened Pipeline
  import opened ProgressOrder

  /** The constructor arguments of one network variant. */
  datatype ModelConfig = ModelConfig(encoder: string, features: nat, outChannels: seq<nat>)

  /** `MODEL_CONFIGS`, keyed by encoder value. */
  const ModelConfigs: map<string, ModelConfig> := map[
    "vits" := ModelConfig("vits", 64, [48, 96, 192, 384]),
    "vitb" := ModelConfig("vitb", 128, [96, 192, 384, 768]),
    "vitl" := ModelConfig("vitl", 256, [256, 512, 1024, 1024])
  ]

  /** Every encoder has exactly one configuration, which names that encoder,
      and there is no configuration for anything else. */
  lemma ConfigForEveryEncoder(e: Encoder)
    ensures e.Value() in ModelConfigs && ModelConfigs[e.Value()].encoder == e.Value()
    ensures forall key | key in ModelConfigs :: EncoderFromValue(key).Some?
  {
    ConfigFor(e);
  }

  lemma ConfigFor(e: Encoder)
    ensures e.Value() in ModelConfigs && ModelConfigs[e.Value()].encoder == e.Value()
  {
  }

  /** The file name of an encoder's weights. */
  function CheckpointName(e: Encoder): (name: string)
    ensures IsComponent(name)
  {
    var name := "video_depth_anything_" + e.Value() + ".pth";
    assert name[0] == 'v';
    assert forall k | 0 <= k < |name| :: name[k] != '/';
    name
  }

  /** `CHECKPOINT_DIR / f"video_depth_anything_{encoder.value}.pth"`.
      `CHECKPOINT_DIR`, the project root's `checkpoints` directory, is found
      from the module's own location at import and is a parameter here. */
  function CheckpointPath(dir: Path, e: Encoder): (p: Path)
    ensures p.parts != [] && Parent(p) == dir && Name(p) == CheckpointName(e)
  {
    JoinComponent(dir, CheckpointName(e));
    Join(dir, CheckpointName(e))
  }

  /** Each encoder reads its own checkpoint file. */
  lemma CheckpointsDistinct(dir: Path, a: Encoder, b: Encoder)
    ensures CheckpointPath(dir, a) == CheckpointPath(dir, b) ==> a == b
  {
    if CheckpointPath(dir, a) == CheckpointPath(dir, b) {
      var na, nb := CheckpointName(a), CheckpointName(b);
      assert na == nb;
      assert na[21..25] == a.Value() && nb[21..25] == b.Value();
      EncoderValueRoundTrip(a);
      EncoderValueRoundTrip(b);
    }
  }

  /** A loaded network: built from its configuration, with the weights of
      its checkpoint, moved to a device and put in evaluation mode. */
  datatype Network = Network(config: ModelConfig, checkpoint: Path, device: string)

  /** What the opaque `infer_video_depth` does for one call: it iterates a
      progress bar over `windows` windows, resuming it `iterated` times before
      it returns or raises, and then gives `output`. */
  datatype Inference = Inference(windows: nat, iterated: nat, output: Result<(seq<DepthMap>, real)>)

  /** Which class the inference module's `tqdm` name is bound to. */
  datatype TqdmBinding = LibraryTqdm | Forwarding

  /** The inference module, as far as its `tqdm` attribute goes. */
  class InferenceModule {
    var tqdm: TqdmBinding

    constructor(binding: TqdmBinding)
      ensures tqdm == binding
    {
      tqdm := binding;
    }
  }

  const NotLoaded := "Model not loaded. Call load_model() first."

  /** The fraction and message reported when the counter reaches `k` of a
      total `t`. */
  function WindowEvent(k: int, t: int): ProgressEvent
    requires t > 0
  {
    ProgressEvent("estimating_depth", k as real / t as real,
                  "Processing window " + IntText(k) + "/" + IntText(t))
  }

  /** The callbacks made while the counter, starting at `from`, is resumed
      `count` times: one per resume when the total is known and positive,
      none otherwise. */
  function Windows(from: int, count: nat, total: Option<int>): seq<ProgressEvent> {
    if total.Some? && total.value > 0 then
      seq(count, i requires 0 <= i < count => WindowEvent(from + i + 1, total.value))
    else []
  }

  lemma WindowsExtend(from: int, count: nat, total: Option<int>)
    requires total.Some? && total.value > 0
    ensures Windows(from, count + 1, total) == Windows(from, count, total) + [WindowEvent(from + count + 1, total.value)]
  {
  }

  /** The progress bar the service substitutes for the library's: it counts
      resumed items and reports each one as a fraction of the total. */
  class ProgressTqdm {
    const iterable: Option<seq<nat>>
    var total: Option<int>
    var n: int

    /** The total is the `total` keyword when given; otherwise the length of
        the iterable when it has one (`sized`); otherwise unknown. */
    constructor(iterable: Option<seq<nat>>, sized: bool, total: Option<int>)
      ensures this.iterable == iterable && n == 0
      ensures this.total == (if total.None? && iterable.Some? && sized then Some(|iterable.value|) else total)
    {
      this.iterable := iterable;
      this.total := total;
      if total.None? && iterable.Some? {
        if sized {
          this.total := Some(|iterable.value|);
        } else {
          this.total := None;
        }
      }
      n := 0;
    }

    /** `__iter__`, resumed `count` times by its consumer: it yields the
        items in order and, after each resume, counts the item and reports
        the count against the total. */
    method Iterate(count: nat) returns (yielded: seq<nat>, events: seq<ProgressEvent>)
      requires iterable.Some? && count <= |iterable.value|
      modifies this
      ensures yielded == iterable.value[..count]
      ensures n == old(n) + count && total == old(total)
      ensures events == Windows(old(n), count, total)
    {
      var items := iterable.value;
      yielded, events := [], [];
      var i := 0;
      while i < count
        invariant 0 <= i <= count
        invariant yielded == items[..i]
        invariant n == old(n) + i && total == old(total)
        invariant events == Windows(old(n), i, total)
      {
        yielded := yielded + [items[i]];
        n := n + 1;
        if total.Some? && total.value != 0 && total.value > 0 {
          WindowsExtend(old(n), i, total);
          assert n == old(n) + i + 1;
          events := events + [WindowEvent(n, total.value)];
        } else {
          NoTotalNoReports(old(n), i + 1, total);
        }
        assert items[..i + 1] == items[..i] + [items[i]];
        i := i + 1;
      }
    }

    /** `update(n)`: advances the count without reporting. */
    method Update(k: int)
      modifies this
      ensures n == old(n) + k && total == old(total)
    {
      n := n + k;
    }
  }

  class DepthService {
    var model: Option<Network>
    var currentEncoder: Option<Encoder>
    var device: string

    /** A network is loaded exactly when an encoder is recorded, and it is
        that encoder's network, on the recorded device. */
    ghost predicate Valid()
      reads this
    {
      && (model.Some? <==> currentEncoder.Some?)
      && (model.Some? ==>
            && currentEncoder.value.Value() in ModelConfigs
            && model.value.config == ModelConfigs[currentEncoder.value.Value()]
            && model.value.device == device)
    }

    constructor()
      ensures model == None && currentEncoder == None && device == "cpu"
      ensures Valid()
    {
      model := None;
      currentEncoder := None;
      device := "cpu";
    }

    /** `load_model`. The cache is keyed on the encoder alone: with that
        encoder already loaded nothing changes, even for another device.
        Otherwise the network is built from the encoder's configuration and
        checkpoint in `checkpointDir`; `loading` is what reading the checkpoint
        and moving the network give, and when that raises nothing changes. */
    method LoadModel(encoder: Encoder, device: string, checkpointDir: Path, loading: Outcome) returns (o: Outcome)
      requires Valid()
      modifies this
      ensures Valid()
      ensures old(model).Some? && old(currentEncoder) == Some(encoder) ==>
        o == Pass && model == old(model) && currentEncoder == old(currentEncoder) && this.device == old(this.device)
      ensures !(old(model).Some? && old(currentEncoder) == Some(encoder)) && loading.Fail? ==>
        o == loading && model == old(model) && currentEncoder == old(currentEncoder) && this.device == old(this.device)
      ensures !(old(model).Some? && old(currentEncoder) == Some(encoder)) && loading.Pass? ==>
        && o == Pass
        && model == Some(Network(ModelConfigs[encoder.Value()], CheckpointPath(checkpointDir, encoder), device))
        && currentEncoder == Some(encoder) && this.device == device
    {
      if model.Some? && currentEncoder == Some(encoder) {
        return Pass;
      }
      ConfigFor(encoder);
      var config := ModelConfigs[encoder.Value()];
      var checkpoint := CheckpointPath(checkpointDir, encoder);
      if loading.Fail? {
        return loading;
      }
      model := Some(Network(config, checkpoint, device));
      currentEncoder := Some(encoder);
      this.device := device;
      o := Pass;
    }

    /** `estimate`. Without a loaded network it raises before anything else.
        With a progress callback, the inference module's `tqdm` is bound to
        the forwarding counter for the duration of the inference and bound
        back afterwards, whether the inference returns or raises; the
        callbacks are the counter's reports over the inference's windows.
        Without one, the inference runs with the library's bar and reports
        nothing. */
    method Estimate(frames: seq<Image>, targetFps: real, inputSize: int, device: string, fp32: bool,
                    onProgress: bool, inference: Inference, vd: InferenceModule) returns (run: EstimatorRun)
      requires inference.iterated <= inference.windows
      modifies vd
      ensures model.None? ==> run == EstimatorRun([], Failure(NotLoaded))
      ensures model.Some? ==> run.output == inference.output
      ensures model.Some? && onProgress ==>
        run.events == Windows(0, inference.iterated, Some(inference.windows))
      ensures !onProgress ==> run.events == []
      ensures vd.tqdm == old(vd.tqdm)
    {
      if model.None? {
        return EstimatorRun([], Failure(NotLoaded));
      }
      if !onProgress {
        return EstimatorRun([], inference.output);
      }
      var original := vd.tqdm;
      vd.tqdm := Forwarding;
      var bar := new ProgressTqdm(Some(seq(inference.windows, i => i)), true, None);
      var _, events := bar.Iterate(inference.iterated);
      vd.tqdm := original;
      run := EstimatorRun(events, inference.output);
    }
  }

  /** With a known positive total and a counter starting at 0, the reported
      fractions are k/t for the k-th resume: positive, strictly increasing,
      at most 1, and exactly 1 after the last of t windows. */
  lemma WindowFractions(count: nat, t: int)
    requires t > 0 && count <= t
    ensures var es := Windows(0, count, Some(t));
      && |es| == count
      && (forall i | 0 <= i < count :: es[i].stage == "estimating_depth" && 0.0 < es[i].fraction <= 1.0)
      && (forall i, j | 0 <= i < j < count :: es[i].fraction < es[j].fraction)
      && (count > 0 ==> (es[count - 1].fraction == 1.0 <==> count == t))
  {
    var es := Windows(0, count, Some(t));
    forall i | 0 <= i < count ensures es[i].stage == "estimating_depth" && 0.0 < es[i].fraction <= 1.0 {
      WindowAt(0, count, t, i);
      FractionBounds(i + 1, t);
    }
    forall i, j | 0 <= i < j < count ensures es[i].fraction < es[j].fraction {
      WindowAt(0, count, t, i);
      WindowAt(0, count, t, j);
      FractionGrows(i + 1, j + 1, t);
    }
    if count > 0 {
      WindowAt(0, count, t, count - 1);
      FractionBounds(count, t);
    }
  }

  lemma WindowAt(from: int, count: nat, t: int, i: nat)
    requires t > 0 && i < count
    ensures |Windows(from, count, Some(t))| == count
    ensures Windows(from, count, Some(t))[i] == WindowEvent(from + i + 1, t)
  {
  }

  lemma FractionGrows(a: int, b: int, t: int)
    requires a < b && t > 0
    ensures a as real / t as real < b as real / t as real
  {
  }

  lemma FractionBounds(k: int, t: int)
    requires 0 < k <= t
    ensures 0.0 < k as real / t as real <= 1.0
    ensures k as real / t as real == 1.0 <==> k == t
  {
  }

  /** The k-th report names window k of t. */
  lemma WindowMessages(count: nat, t: int)
    requires t > 0
    ensures var es := Windows(0, count, Some(t));
      forall i | 0 <= i < count :: es[i].message == "Processing window " + NatText(i + 1) + "/" + NatText(t)
  {
    var es := Windows(0, count, Some(t));
    forall i | 0 <= i < count
      ensures es[i].message == "Processing window " + NatText(i + 1) + "/" + NatText(t)
    {
      assert es[i] == WindowEvent(i + 1, t);
    }
  }

  /** With no total, or a total of zero or less, nothing is reported. */
  lemma NoTotalNoReports(from: int, count: nat, total: Option<int>)
    requires total.None? || total.value <= 0
    ensures forall k: nat | k <= count :: Windows(from, k, total) == []
  {
  }

  /** A counter that starts at 0 or above reports fractions that start at 0
      or above and never decrease. */
  lemma WindowsOrderly(from: nat, count: nat, total: Option<int>)
    ensures Orderly(Windows(from, count, total))
  {
    var es := Windows(from, count, total);
    if total.Some? && total.value > 0 {
      var t := total.value;
      forall i | 0 <= i < |es| ensures 0.0 <= es[i].fraction {
        assert es[i] == WindowEvent(from + i + 1, t);
      }
      forall i | 0 < i < |es| ensures es[i - 1].fraction <= es[i].fraction {
        assert es[i - 1] == WindowEvent(from + i, t) && es[i] == WindowEvent(from + i + 1, t);
        FractionGrows(from + i, from + i + 1, t);
      }
    }
  }

  /** A job whose estimator is this service never reports backwards: its
      callbacks come from the counter, so the pipeline's progress record
      only advances. */
  lemma ServiceJobAdvances(c: JobConfig, env: Collaborators, device: string, inference: Inference)
    requires env.estimate.events == [] || env.estimate.events == Windows(0, inference.iterated, Some(inference.windows))
    ensures var rs := Run(c, env, device).reports;
      forall i, j | 0 <= i < j < |rs| :: NoEarlier(rs[i], rs[j])
  {
    WindowsOrderly(0, inference.iterated, Some(inference.windows));
    RunAdvances(c, env, device);
  }
}
