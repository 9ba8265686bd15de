/** The frame I/O port's implementation, as far as it has logic of its own:
    saving frames through a video writer that is closed on every exit path,
    and turning depth maps into three-channel grey frames with one
    normalisation shared by the whole sequence. Reading frames is a call into
    the upstream reader and is represented by its outcome in the pipeline. */
module VideoService {
  import opened Outcomes
  import opened Paths
  import opened Ports

  /** All depth values of a sequence of maps, frame after frame. */
  function Values(ds: seq<DepthMap>): seq<real> {
    if ds == [] then [] else Values(ds[..|ds| - 1]) + ds[|ds| - 1]
  }

  /** `min()` of a non-empty array. */
  function Least(xs: seq<real>): (m: real)
    requires xs != []
    ensures m in xs && forall k | 0 <= k < |xs| :: m <= xs[k]
  {
    if |xs| == 1 then xs[0]
    else
      var m := Least(xs[..|xs| - 1]);
      assert forall k | 0 <= k < |xs| - 1 :: xs[..|xs| - 1][k] == xs[k];
      if xs[|xs| - 1] < m then xs[|xs| - 1] else m
  }

  /** `max()` of a non-empty array. */
  function Greatest(xs: seq<real>): (m: real)
    requires xs != []
    ensures m in xs && forall k | 0 <= k < |xs| :: xs[k] <= m
  {
    if |xs| == 1 then xs[0]
    else
      var m := Greatest(xs[..|xs| - 1]);
      assert forall k | 0 <= k < |xs| - 1 :: xs[..|xs| - 1][k] == xs[k];
      if xs[|xs| - 1] > m then xs[|xs| - 1] else m
  }

  /** `((v - lo) / (hi - lo) * 255).astype(np.uint8)`: scaled to 0..255 and
      truncated, not rounded. */
  function Normalize(v: real, lo: real, hi: real): int
    requires lo < hi
  {
    ((v - lo) / (hi - lo) * 255.0).Floor
  }

  /** A value between the bounds lands in 0..255, the lower bound on 0 and
      the upper bound on 255. */
  lemma NormalizeRange(v: real, lo: real, hi: real)
    requires lo < hi && lo <= v <= hi
    ensures 0 <= Normalize(v, lo, hi) <= 255
    ensures Normalize(lo, lo, hi) == 0 && Normalize(hi, lo, hi) == 255
  {
    UnitFraction(v - lo, hi - lo);
    UnitFraction(hi - lo, hi - lo);
    UnitFraction(0.0, hi - lo);
  }

  lemma UnitFraction(a: real, d: real)
    requires 0.0 <= a <= d && d > 0.0
    ensures 0.0 <= a / d <= 1.0
    ensures a == d ==> a / d == 1.0
    ensures a == 0.0 ==> a / d == 0.0
  {
    var s := a / d;
    assert s * d == a;
  }

  /** Deeper values never come out darker. */
  lemma NormalizeMonotone(v1: real, v2: real, lo: real, hi: real)
    requires lo < hi && v1 <= v2
    ensures Normalize(v1, lo, hi) <= Normalize(v2, lo, hi)
  {
    assert (v1 - lo) / (hi - lo) <= (v2 - lo) / (hi - lo) by {
      assert v1 - lo <= v2 - lo;
    }
  }

  /** `np.stack([level] * 3, axis=-1)` for one pixel. */
  function Gray3(level: int): Pixel {
    [level, level, level]
  }

  /** One depth map as a grey frame, against the sequence's bounds. */
  function GreyFrame(m: DepthMap, lo: real, hi: real): Image
    requires lo < hi
  {
    seq(|m|, j requires 0 <= j < |m| => Gray3(Normalize(m[j], lo, hi)))
  }

  /** Whether a sequence of maps has values and they are not all equal, so
      the normalisation divides by a non-zero span. */
  predicate Spread(ds: seq<DepthMap>) {
    Values(ds) != [] && Least(Values(ds)) < Greatest(Values(ds))
  }

  /** The frames `_write_depth_frames` appends: every map normalised against
      the minimum and maximum of the whole sequence. */
  function GreyFrames(ds: seq<DepthMap>): seq<Image>
    requires Spread(ds)
  {
    var lo, hi := Least(Values(ds)), Greatest(Values(ds));
    seq(|ds|, i requires 0 <= i < |ds| => GreyFrame(ds[i], lo, hi))
  }

  lemma {:induction false} ValueIn(ds: seq<DepthMap>, i: nat, j: nat)
    requires i < |ds| && j < |ds[i]|
    ensures ds[i][j] in Values(ds)
    decreases |ds|
  {
    var front := ds[..|ds| - 1];
    assert Values(ds) == Values(front) + ds[|ds| - 1];
    if i < |ds| - 1 {
      assert ds[i] == front[i];
      ValueIn(front, i, j);
    } else {
      assert ds[i][j] == Values(ds)[|Values(front)| + j];
    }
  }

  lemma {:induction false} ValueFrom(ds: seq<DepthMap>, v: real)
    requires v in Values(ds)
    ensures exists i, j :: 0 <= i < |ds| && 0 <= j < |ds[i]| && ds[i][j] == v
    decreases |ds|
  {
    var front := ds[..|ds| - 1];
    assert Values(ds) == Values(front) + ds[|ds| - 1];
    if v in Values(front) {
      ValueFrom(front, v);
      var i, j :| 0 <= i < |front| && 0 <= j < |front[i]| && front[i][j] == v;
      assert ds[i] == front[i];
    } else {
      var k :| 0 <= k < |ds[|ds| - 1]| && ds[|ds| - 1][k] == v;
      assert ds[|ds| - 1][k] == v;
    }
  }

  /** The depth frames: one frame per map, one pixel per value, three equal
      channels in 0..255, each value normalised against the bounds of the
      whole sequence (not of its own frame), with the sequence's least value
      black and its greatest white. */
  lemma GreyFramesShape(ds: seq<DepthMap>)
    requires Spread(ds)
    ensures var fs, lo, hi := GreyFrames(ds), Least(Values(ds)), Greatest(Values(ds));
      && |fs| == |ds|
      && (forall i | 0 <= i < |ds| :: |fs[i]| == |ds[i]|)
      && (forall i, j | 0 <= i < |ds| && 0 <= j < |ds[i]| ::
            && fs[i][j] == Gray3(Normalize(ds[i][j], lo, hi))
            && 0 <= fs[i][j][0] <= 255)
      && (exists i, j :: 0 <= i < |ds| && 0 <= j < |ds[i]| && fs[i][j] == Gray3(0))
      && (exists i, j :: 0 <= i < |ds| && 0 <= j < |ds[i]| && fs[i][j] == Gray3(255))
  {
    var fs, lo, hi := GreyFrames(ds), Least(Values(ds)), Greatest(Values(ds));
    forall i, j | 0 <= i < |ds| && 0 <= j < |ds[i]|
      ensures fs[i][j] == Gray3(Normalize(ds[i][j], lo, hi)) && 0 <= fs[i][j][0] <= 255
    {
      ValueIn(ds, i, j);
      NormalizeRange(ds[i][j], lo, hi);
    }
    ValueFrom(ds, lo);
    ValueFrom(ds, hi);
    NormalizeRange(lo, lo, hi);
    var a, b :| 0 <= a < |ds| && 0 <= b < |ds[a]| && ds[a][b] == lo;
    assert fs[a][b] == Gray3(0);
    var c, d :| 0 <= c < |ds| && 0 <= d < |ds[c]| && ds[c][d] == hi;
    assert fs[c][d] == Gray3(255);
  }

  /** Two frames 0, 10 and 5, 20: the shared bounds are 0 and 20, so the
      second frame's 5 is 63 rather than its own minimum's 0, and 10 is 127
      (truncated from 127.5). */
  lemma GreyFramesExample()
    ensures Spread([[0.0, 10.0], [5.0, 20.0]])
    ensures GreyFrames([[0.0, 10.0], [5.0, 20.0]]) == [[Gray3(0), Gray3(127)], [Gray3(63), Gray3(255)]]
  {
    var ds: seq<DepthMap> := [[0.0, 10.0], [5.0, 20.0]];
    ExampleBounds(ds);
    var fs := GreyFrames(ds);
    assert fs[0] == GreyFrame(ds[0], 0.0, 20.0) && fs[1] == GreyFrame(ds[1], 0.0, 20.0);
    assert Normalize(0.0, 0.0, 20.0) == 0 && Normalize(10.0, 0.0, 20.0) == 127;
    assert Normalize(5.0, 0.0, 20.0) == 63 && Normalize(20.0, 0.0, 20.0) == 255;
    assert fs[0] == [Gray3(0), Gray3(127)];
    assert fs[1] == [Gray3(63), Gray3(255)];
  }

  lemma ExampleBounds(ds: seq<DepthMap>)
    requires ds == [[0.0, 10.0], [5.0, 20.0]]
    ensures Values(ds) != [] && Least(Values(ds)) == 0.0 && Greatest(Values(ds)) == 20.0
  {
    var first: seq<DepthMap> := [[0.0, 10.0]];
    assert ds[..1] == first && first[..0] == [];
    assert Values(first) == [0.0, 10.0];
    var xs := Values(ds);
    assert xs == [0.0, 10.0, 5.0, 20.0];
    assert Least(xs) <= xs[0] && Greatest(xs) >= xs[3];
  }

  /** The writer's construction arguments. */
  datatype WriterSettings = WriterSettings(
    path: string, fps: real, macroBlockSize: nat, codec: string, ffmpegParams: seq<string>)

  /** What `imageio.get_writer` returns: the frames appended so far and
      whether it has been closed. */
  class Writer {
    const settings: WriterSettings
    var frames: seq<Image>
    var closed: bool

    constructor(settings: WriterSettings)
      ensures this.settings == settings && frames == [] && !closed
    {
      this.settings := settings;
      frames := [];
      closed := false;
    }

    /** `append_data`; `fault` is whether encoding this frame raises. */
    method Append(frame: Image, fault: Outcome) returns (o: Outcome)
      modifies this
      ensures o == fault && closed == old(closed)
      ensures frames == (if fault.Pass? then old(frames) + [frame] else old(frames))
    {
      o := fault;
      if fault.Pass? {
        frames := frames + [frame];
      }
    }

    method Close()
      modifies this
      ensures closed && frames == old(frames)
    {
      closed := true;
    }
  }

  /** Where appending raises, if anywhere: at the frame with this index. */
  datatype AppendFault = Never | At(index: nat, error: string)

  function FaultFor(fault: AppendFault, i: nat): Outcome {
    if fault.At? && fault.index == i then Fail(fault.error) else Pass
  }

  const EmptyReduction := "zero-size array to reduction operation minimum which has no identity"

  /** The frames `save_video` appends for this data, when it gets that far. */
  function Written(data: FrameData): seq<Image>
    requires data.Depth? ==> Values(data.maps) == [] || Spread(data.maps)
  {
    match data
    case Rgb(images) => images
    case Depth(maps) => if Values(maps) == [] then [] else GreyFrames(maps)
  }

  /** `save_video`. When `get_writer` raises (`opening`), there is no writer.
      Otherwise every frame, in index order, or its normalised grey frame
      for depths, is appended until one raises; the minimum of an empty
      depth array raises before any append; and the writer is closed on
      every path. */
  method SaveVideo(data: FrameData, output: Path, fps: real, isDepths: bool,
                   opening: Outcome, fault: AppendFault) returns (o: Outcome, w: Writer?)
    requires isDepths == data.Depth?
    requires data.Depth? ==> Values(data.maps) == [] || Spread(data.maps)
    ensures opening.Fail? ==> o == opening && w == null
    ensures opening.Pass? ==> w != null && fresh(w) && w.closed
    ensures opening.Pass? ==> w.settings == WriterSettings(Paths.Text(output), fps, 1, "libx264", ["-crf", "18"])
    ensures opening.Pass? && data.Depth? && Values(data.maps) == [] ==> o == Fail(EmptyReduction) && w.frames == []
    ensures opening.Pass? && !(data.Depth? && Values(data.maps) == []) ==>
      if fault.At? && fault.index < |Written(data)| then o == Fail(fault.error) && w.frames == Written(data)[..fault.index]
      else o == Pass && w.frames == Written(data)
  {
    if opening.Fail? {
      return opening, null;
    }
    w := new Writer(WriterSettings(Paths.Text(output), fps, 1, "libx264", ["-crf", "18"]));
    if isDepths && Values(data.maps) == [] {
      o := Fail(EmptyReduction);
    } else {
      o := AppendAll(w, Written(data), fault);
    }
    w.Close();
  }

  /** The append loop of both branches. */
  method AppendAll(w: Writer, frames: seq<Image>, fault: AppendFault) returns (o: Outcome)
    requires w.frames == [] && !w.closed
    modifies w
    ensures !w.closed
    ensures if fault.At? && fault.index < |frames| then o == Fail(fault.error) && w.frames == frames[..fault.index]
      else o == Pass && w.frames == frames
  {
    var i := 0;
    while i < |frames|
      invariant 0 <= i <= |frames| && !w.closed
      invariant w.frames == frames[..i]
      invariant !(fault.At? && fault.index < i)
    {
      o := w.Append(frames[i], FaultFor(fault, i));
      if o.Fail? {
        return;
      }
      i := i + 1;
    }
    o := Pass;
  }
}
