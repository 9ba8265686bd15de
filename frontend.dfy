/** The browser client's view of the progress record: the overall
    percentage the bar shows, which stage dots are done or active, which
    message is shown, and the polling timer's handle. The DOM is represented
    by the values it is given: a width, a message and one class per dot. */
module Frontend {
  import opened Outcomes
  import opened Models
  import opened Ports
  import opened Pipeline
  import opened PipelineSchedule
  import opened PipelineProperties
  import opened ProgressOrder

  /** `STAGE_ORDER`: the stages a job runs through, then "complete". */
  const StageOrder: seq<string> := [
    "extracting_audio", "reading_frames", "estimating_depth",
    "saving_source", "saving_depth", "merging_rgbd", "complete"]

  /** The stages before "complete". */
  const StagesTotal := |StageOrder| - 1

  /** `xs.indexOf(s)`: the first position of `s`, or -1. */
  function IndexOf(xs: seq<string>, s: string): (i: int)
    ensures -1 <= i < |xs|
    ensures i >= 0 ==> xs[i] == s && s !in xs[..i]
    ensures i == -1 <==> s !in xs
  {
    if xs == [] then -1
    else if xs[0] == s then 0
    else
      var j := IndexOf(xs[1..], s);
      assert xs[1..][..j + 1] == xs[1..j + 2] by {
        if j >= 0 { assert xs[1..j + 2] == xs[1..][..j + 1]; }
      }
      if j < 0 then -1 else j + 1
  }

  /** The overall percentage for a reported stage and stage fraction. */
  function Overall(stage: string, progress: real): real {
    OverallIn(StageOrder, stage, progress)
  }

  /** The percentage against a given stage order, whose last entry is
      "complete". */
  function OverallIn(order: seq<string>, stage: string, progress: real): real {
    var i := IndexOf(order, stage);
    if 0 <= i < |order| - 1 then (i as real + progress) / (|order| - 1) as real * 100.0
    else if stage == "complete" then 100.0
    else 0.0
  }

  /** `Math.min(overall, 100)`. */
  function BarWidth(overall: real): (w: real)
    ensures w <= 100.0 && w <= overall && (w == overall || w == 100.0)
  {
    if overall < 100.0 then overall else 100.0
  }

  /** The classes a stage dot can carry. */
  datatype Dot = Plain | Active | Done

  /** The class of the dot for stage `dot` while `stage` is reported. */
  function DotState(dot: string, stage: string): Dot {
    DotIn(StageOrder, dot, stage)
  }

  /** The classification against a given stage order. */
  function DotIn(order: seq<string>, dot: string, stage: string): Dot {
    var mine, current := IndexOf(order, dot), IndexOf(order, stage);
    if mine < current then Done else if mine == current then Active else Plain
  }

  /** An empty message leaves the shown one in place. */
  function ShownMessage(shown: string, message: string): (r: string)
    ensures message == "" ==> r == shown
    ensures message != "" ==> r == message
  {
    if message != "" then message else shown
  }

  /** No stage appears twice in `STAGE_ORDER`. */
  predicate NoRepeats(xs: seq<string>) {
    forall a, b | 0 <= a < b < |xs| :: xs[a] != xs[b]
  }

  lemma StageOrderNoRepeats()
    ensures NoRepeats(StageOrder)
  {
  }

  /** In a list without repeats, `indexOf` finds each entry at its own
      position. */
  lemma IndexOfEntry(xs: seq<string>, i: nat)
    requires NoRepeats(xs) && i < |xs|
    ensures IndexOf(xs, xs[i]) == i
  {
    assert xs[i] in xs;
  }

  lemma Distinct(i: nat)
    requires i < |StageOrder|
    ensures IndexOf(StageOrder, StageOrder[i]) == i
  {
    StageOrderNoRepeats();
    IndexOfEntry(StageOrder, i);
  }

  /** The client's order is the order the pipeline runs its stages in: a
      stage's position in `STAGE_ORDER` is one less than its rank, and the
      two stages that are not in it, UPLOADING and FAILED, are not found. */
  lemma StageOrderMatchesPipeline(s: Stage)
    ensures IndexOf(StageOrder, s.Value()) == if s == Uploading || s == Failed then -1 else Rank(s) - 1
  {
    if s == Uploading || s == Failed {
      assert s.Value() !in StageOrder;
    } else {
      var i := Rank(s) - 1;
      assert StageOrder[i] == s.Value();
      Distinct(i);
    }
  }

  /** A stage before "complete", with a fraction in [0, 1], shows
      (index + fraction) / 6 of the bar, which lies between 0 and 100. */
  lemma OverallOfRunningStage(i: nat, progress: real)
    requires i < StagesTotal && 0.0 <= progress <= 1.0
    ensures Overall(StageOrder[i], progress) == (i as real + progress) / 6.0 * 100.0
    ensures 0.0 <= Overall(StageOrder[i], progress) <= 100.0
  {
    assert Overall(StageOrder[i], progress) == (i as real + progress) / 6.0 * 100.0 by {
      StageOrderNoRepeats();
      RunningStageIn(StageOrder, i, progress);
      assert (|StageOrder| - 1) as real == 6.0;
    }
  }

  lemma RunningStageIn(order: seq<string>, i: nat, progress: real)
    requires NoRepeats(order) && i < |order| - 1
    ensures OverallIn(order, order[i], progress) == (i as real + progress) / (|order| - 1) as real * 100.0
  {
    IndexOfEntry(order, i);
  }

  /** "complete" fills the bar; a stage the client does not know ("uploading",
      "failed", "idle") shows nothing. */
  lemma OverallOutsideRun(stage: string, progress: real)
    ensures stage == "complete" ==> Overall(stage, progress) == 100.0
    ensures stage !in StageOrder ==> Overall(stage, progress) == 0.0
  {
    Distinct(6);
  }

  /** The percentage grows with the stage's position and, within a stage,
      with its fraction. */
  lemma OverallMonotone(s1: string, p1: real, s2: string, p2: real)
    requires s1 in StageOrder && s2 in StageOrder
    requires 0.0 <= p1 <= 1.0 && 0.0 <= p2 <= 1.0
    requires var i1, i2 := IndexOf(StageOrder, s1), IndexOf(StageOrder, s2);
      i1 < i2 || (i1 == i2 && p1 <= p2)
    ensures Overall(s1, p1) <= Overall(s2, p2)
  {
    var i1, i2 := IndexOf(StageOrder, s1), IndexOf(StageOrder, s2);
    if i2 == StagesTotal {
      if i1 < StagesTotal {
        OverallOfRunningStage(i1, p1);
      }
    } else {
      OverallOfRunningStage(i1, p1);
      OverallOfRunningStage(i2, p2);
      assert i1 as real + p1 <= i2 as real + p2;
    }
  }

  /** Among the dots of `STAGE_ORDER`, a dot is done exactly when it comes
      before the reported stage and active exactly when it is that stage;
      while the reported stage is not in the order, none of them is marked.
      A dot for a stage outside the order counts as position -1: it is done
      whenever the reported stage is known, and active when it is not. */
  lemma DotStates(dot: string, stage: string)
    ensures dot in StageOrder && stage in StageOrder ==>
      && (DotState(dot, stage) == Done <==> IndexOf(StageOrder, dot) < IndexOf(StageOrder, stage))
      && (DotState(dot, stage) == Active <==> dot == stage)
    ensures dot in StageOrder && stage !in StageOrder ==> DotState(dot, stage) == Plain
    ensures dot !in StageOrder ==> DotState(dot, stage) == (if stage in StageOrder then Done else Active)
  {
  }

  /** What `updateProgressUI` leaves on the page. */
  class ProgressView {
    var barWidth: real
    var message: string
    /** The stage named by each dot element, in document order. */
    const dotStages: seq<string>
    var dots: seq<Dot>

    constructor(dotStages: seq<string>)
      ensures this.dotStages == dotStages && |dots| == |dotStages|
      ensures barWidth == 0.0 && message == "Initializing..."
      ensures forall k | 0 <= k < |dots| :: dots[k] == Plain
    {
      this.dotStages := dotStages;
      barWidth := 0.0;
      message := "Initializing...";
      dots := seq(|dotStages|, k => Plain);
    }

    /** `resetProgressUI()`: an empty bar, the initial message, and every
        dot cleared. */
    method Reset()
      modifies this
      ensures barWidth == 0.0 && message == "Initializing..."
      ensures |dots| == |dotStages| && forall k | 0 <= k < |dots| :: dots[k] == Plain
    {
      barWidth := 0.0;
      message := "Initializing...";
      dots := seq(|dotStages|, k => Plain);
    }

    /** `updateProgressUI(data)`: the message when there is one, the bar
      width, and then each dot in turn cleared and reclassified. */
    method Update(data: ProgressDict)
      modifies this
      ensures message == ShownMessage(old(message), data.message)
      ensures barWidth == BarWidth(Overall(data.stage, data.progress))
      ensures |dots| == |dotStages|
      ensures forall k | 0 <= k < |dots| :: dots[k] == DotState(dotStages[k], data.stage)
    {
      if data.message != "" {
        message := data.message;
      }
      var stageIdx := IndexOf(StageOrder, data.stage);
      var overall := Percentage(StageOrder, data.stage, stageIdx, data.progress);
      barWidth := if overall < 100.0 then overall else 100.0;
      var updated := Classify(StageOrder, dotStages, data.stage, stageIdx);
      dots := updated;
    }
  }

  /** The overall percentage as `updateProgressUI` computes it. */
  method Percentage(order: seq<string>, stage: string, stageIdx: int, progress: real) returns (overall: real)
    requires stageIdx == IndexOf(order, stage)
    ensures overall == OverallIn(order, stage, progress)
  {
    var stagesTotal := |order| - 1;
    overall := 0.0;
    if stageIdx >= 0 && stageIdx < stagesTotal {
      overall := (stageIdx as real + progress) / stagesTotal as real * 100.0;
    } else if stage == "complete" {
      overall := 100.0;
    }
  }

  /** The `forEach` over the dot elements: each one, in document order, is
      done, active or neither against the reported stage's position. */
  method Classify(order: seq<string>, dotStages: seq<string>, stage: string, stageIdx: int) returns (updated: seq<Dot>)
    requires stageIdx == IndexOf(order, stage)
    ensures |updated| == |dotStages|
    ensures forall m | 0 <= m < |dotStages| :: updated[m] == DotIn(order, dotStages[m], stage)
  {
    updated := [];
    var k := 0;
    while k < |dotStages|
      invariant 0 <= k <= |dotStages| && |updated| == k
      invariant forall m | 0 <= m < k :: updated[m] == DotIn(order, dotStages[m], stage)
    {
      var elIdx := IndexOf(order, dotStages[k]);
      var cls := Plain;
      if elIdx < stageIdx {
        cls := Done;
      } else if elIdx == stageIdx {
        cls := Active;
      }
      updated := updated + [cls];
      k := k + 1;
    }
  }

  /** The polling timer: the handle kept in `progressPollId` and the
      intervals still running. */
  class Poller {
    var pollId: Option<nat>
    var running: set<nat>

    constructor()
      ensures pollId == None && running == {}
    {
      pollId := None;
      running := {};
    }

    /** `startProgressPolling`: `setInterval` returns a positive handle
        `id`, which replaces the kept one (a running interval whose handle
        is overwritten keeps running). */
    method Start(id: nat)
      requires id > 0 && id !in running
      modifies this
      ensures pollId == Some(id) && running == old(running) + {id}
    {
      running := running + {id};
      pollId := Some(id);
    }

    /** `stopProgressPolling`: clears the kept interval, if any, and forgets
        its handle; with no handle kept it changes nothing, so stopping
        twice is stopping once. */
    method Stop()
      modifies this
      ensures pollId == None
      ensures old(pollId).Some? ==> running == old(running) - {old(pollId).value}
      ensures old(pollId).None? ==> running == old(running)
    {
      if pollId.Some? {
        running := running - {pollId.value};
        pollId := None;
      }
    }
  }

  /** The estimator's callbacks report fractions of at most 1. */
  predicate Bounded(events: seq<ProgressEvent>) {
    forall i | 0 <= i < |events| :: events[i].fraction <= 1.0
  }

  /** Every report a job makes before FAILED has a fraction in [0, 1]. */
  lemma RunProgressBounded(c: JobConfig, env: Collaborators, device: string)
    requires Orderly(env.estimate.events) && Bounded(env.estimate.events)
    ensures var rs := Run(c, env, device).reports;
      forall i | 0 <= i < |rs| && rs[i].stage != Failed :: 0.0 <= rs[i].progress <= 1.0
  {
    RunFollows(c, env, device);
    RunEnds(c, env, device);
    ScheduleBounded(env);
    TraceInUnit(Run(c, env, device), ScheduledReports(env));
  }

  /** Every report has a fraction in [0, 1]. */
  predicate InUnit(rs: seq<Snapshot>) {
    forall i | 0 <= i < |rs| :: 0.0 <= rs[i].progress <= 1.0
  }

  lemma InUnitJoined(a: seq<Snapshot>, b: seq<Snapshot>)
    requires InUnit(a) && InUnit(b)
    ensures InUnit(a + b)
  {
    forall i | 0 <= i < |a + b| ensures 0.0 <= (a + b)[i].progress <= 1.0 {
      if i >= |a| { assert (a + b)[i] == b[i - |a|]; }
    }
  }

  /** A trace that reports the whole schedule, or a prefix of it and then
      FAILED, has fractions in [0, 1] before FAILED when the schedule does. */
  lemma TraceInUnit(t: Trace, sched: seq<Snapshot>)
    requires InUnit(sched)
    requires t.result.success ==> t.reports == sched
    requires !t.result.success ==>
      |t.reports| > 0 && t.reports[..|t.reports| - 1] <= sched && t.reports[|t.reports| - 1].stage == Failed
    ensures forall i | 0 <= i < |t.reports| && t.reports[i].stage != Failed :: 0.0 <= t.reports[i].progress <= 1.0
  {
    if !t.result.success {
      forall i | 0 <= i < |t.reports| - 1 ensures 0.0 <= t.reports[i].progress <= 1.0 {
        assert t.reports[i] == t.reports[..|t.reports| - 1][i];
      }
    }
  }

  lemma ScheduleBounded(env: Collaborators)
    requires Orderly(env.estimate.events) && Bounded(env.estimate.events)
    ensures InUnit(ScheduledReports(env))
  {
    var opening, relayed := Opening(env), Relay(env.estimate.events);
    assert InUnit(opening);
    assert InUnit(Closing);
    InUnitJoined(opening, relayed);
    InUnitJoined(opening + relayed, Closing);
  }

  /** Polling a job whose estimator reports fractions in [0, 1] that never
      decrease, the bar never moves back: of any two reports, neither of
      them FAILED, the later one shows at least the earlier one's width. */
  lemma BarNeverMovesBack(c: JobConfig, env: Collaborators, device: string)
    requires Orderly(env.estimate.events) && Bounded(env.estimate.events)
    ensures var rs := Run(c, env, device).reports;
      forall i, j | 0 <= i < j < |rs| && rs[i].stage != Failed && rs[j].stage != Failed ::
        var a, b := SnapshotDict(rs[i]), SnapshotDict(rs[j]);
        BarWidth(Overall(a.stage, a.progress)) <= BarWidth(Overall(b.stage, b.progress))
  {
    var rs := Run(c, env, device).reports;
    RunAdvances(c, env, device);
    RunProgressBounded(c, env, device);
    forall i, j | 0 <= i < j < |rs| && rs[i].stage != Failed && rs[j].stage != Failed
      ensures Overall(rs[i].stage.Value(), rs[i].progress) <= Overall(rs[j].stage.Value(), rs[j].progress)
    {
      SnapshotsAdvance(rs[i], rs[j]);
    }
  }

  /** A report not behind another, neither FAILED, shows at least its
      percentage. */
  lemma SnapshotsAdvance(a: Snapshot, b: Snapshot)
    requires NoEarlier(a, b) && a.stage != Failed && b.stage != Failed
    requires 0.0 <= a.progress <= 1.0 && 0.0 <= b.progress <= 1.0
    ensures Overall(a.stage.Value(), a.progress) <= Overall(b.stage.Value(), b.progress)
  {
    SnapshotPercentage(a);
    SnapshotPercentage(b);
    if 1 <= Rank(a.stage) < Rank(b.stage) <= 6 {
      assert (Rank(a.stage) - 1) as real + a.progress <= (Rank(b.stage) - 1) as real + b.progress;
    }
  }

  /** The percentage a report shows, by the rank of its stage. */
  lemma SnapshotPercentage(s: Snapshot)
    requires s.stage != Failed && 0.0 <= s.progress <= 1.0
    ensures var r := Rank(s.stage);
      Overall(s.stage.Value(), s.progress)
        == if r == 0 then 0.0 else if r == 7 then 100.0 else ((r - 1) as real + s.progress) / 6.0 * 100.0
    ensures 0.0 <= Overall(s.stage.Value(), s.progress) <= 100.0
  {
    StageOrderMatchesPipeline(s.stage);
    var r := Rank(s.stage);
    if r == 0 {
      OverallOutsideRun(s.stage.Value(), s.progress);
    } else if r == 7 {
      OverallOutsideRun(s.stage.Value(), s.progress);
    } else {
      assert StageOrder[r - 1] == s.stage.Value();
      OverallOfRunningStage(r - 1, s.progress);
    }
  }
}
