/** The progress record never moves backwards: each report a job makes is
    at a later stage than the one before, or at the same stage with at least
    the same fraction, provided the estimator's own callbacks do not go
    backwards. This is what lets a client poll the record and draw a bar
    that only grows. */
module ProgressOrder {
  import opened Models
  import opened Ports
  import opened Pipeline
  import opened PipelineSchedule
  import opened PipelineProperties

  /** The position of a stage in the order the pipeline runs them. FAILED
      comes after every other stage, as it ends a job. */
  function Rank(s: Stage): nat {
    match s
    case Uploading => 0
    case ExtractingAudio => 1
    case ReadingFrames => 2
    case EstimatingDepth => 3
    case SavingSource => 4
    case SavingDepth => 5
    case MergingRgbd => 6
    case Complete => 7
    case Failed => 8
  }

  /** `b` is not behind `a`. */
  predicate NoEarlier(a: Snapshot, b: Snapshot) {
    Rank(a.stage) < Rank(b.stage) || (a.stage == b.stage && a.progress <= b.progress)
  }

  /** Every report is not behind the one before it. */
  predicate Advancing(rs: seq<Snapshot>) {
    forall i | 0 < i < |rs| :: NoEarlier(rs[i - 1], rs[i])
  }

  /** The estimator's callbacks report fractions that start at 0 or above
      and never decrease. */
  predicate Orderly(events: seq<ProgressEvent>) {
    && (forall i | 0 <= i < |events| :: 0.0 <= events[i].fraction)
    && (forall i | 0 < i < |events| :: events[i - 1].fraction <= events[i].fraction)
  }

  lemma {:induction false} AdvancingIsOrdered(rs: seq<Snapshot>)
    requires Advancing(rs)
    ensures forall i, j | 0 <= i < j < |rs| :: NoEarlier(rs[i], rs[j])
    decreases |rs|
  {
    if |rs| > 1 {
      var front := rs[..|rs| - 1];
      assert Advancing(front) by {
        forall i | 0 < i < |front| ensures NoEarlier(front[i - 1], front[i]) {
          assert front[i - 1] == rs[i - 1] && front[i] == rs[i];
        }
      }
      AdvancingIsOrdered(front);
      forall i, j | 0 <= i < j < |rs| ensures NoEarlier(rs[i], rs[j]) {
        if j < |rs| - 1 {
          assert rs[i] == front[i] && rs[j] == front[j];
        } else if i < j - 1 {
          assert NoEarlier(front[i], front[j - 1]);
          assert NoEarlier(rs[j - 1], rs[j]);
        }
      }
    }
  }

  lemma AdvancingJoined(a: seq<Snapshot>, b: seq<Snapshot>)
    requires Advancing(a) && Advancing(b)
    requires a != [] && b != [] ==> NoEarlier(a[|a| - 1], b[0])
    ensures Advancing(a + b)
  {
    forall i | 0 < i < |a + b| ensures NoEarlier((a + b)[i - 1], (a + b)[i]) {
      if i < |a| {
        assert (a + b)[i - 1] == a[i - 1] && (a + b)[i] == a[i];
      } else if i == |a| {
        assert (a + b)[i - 1] == a[|a| - 1] && (a + b)[i] == b[0];
      } else {
        assert (a + b)[i - 1] == b[i - 1 - |a|] && (a + b)[i] == b[i - |a|];
      }
    }
  }

  lemma AdvancingPrefix(a: seq<Snapshot>, b: seq<Snapshot>)
    requires Advancing(b) && a <= b
    ensures Advancing(a)
  {
    forall i | 0 < i < |a| ensures NoEarlier(a[i - 1], a[i]) {
      assert a[i - 1] == b[i - 1] && a[i] == b[i];
    }
  }

  lemma OpeningAdvances(env: Collaborators)
    ensures Advancing(Opening(env))
    ensures forall i | 0 <= i < |Opening(env)| :: Rank(Opening(env)[i].stage) <= 3
    ensures |Opening(env)| > 0 && Opening(env)[|Opening(env)| - 1] == Snapshot(EstimatingDepth, 0.0, "Loading depth model...")
  {
    OpeningEntries(env);
  }

  lemma ClosingAdvances()
    ensures Advancing(Closing)
    ensures forall i | 0 <= i < |Closing| :: 4 <= Rank(Closing[i].stage) <= 7
  {
  }

  lemma RelayAdvances(events: seq<ProgressEvent>)
    requires Orderly(events)
    ensures Advancing(Relay(events))
    ensures forall i | 0 <= i < |events| :: Relay(events)[i].stage == EstimatingDepth && 0.0 <= Relay(events)[i].progress
  {
  }

  /** Without a raise, the reports never go backwards. */
  lemma ScheduleAdvances(env: Collaborators)
    requires Orderly(env.estimate.events)
    ensures Advancing(ScheduledReports(env))
    ensures forall i | 0 <= i < |ScheduledReports(env)| :: ScheduledReports(env)[i].stage != Failed
  {
    ScheduleInOrder(env);
    ScheduleNeverFails(env);
  }

  lemma ScheduleInOrder(env: Collaborators)
    requires Orderly(env.estimate.events)
    ensures Advancing(ScheduledReports(env))
  {
    var opening, relayed := Opening(env), Relay(env.estimate.events);
    OpeningAdvances(env);
    ClosingAdvances();
    RelayAdvances(env.estimate.events);
    AdvancingJoined(opening, relayed);
    if relayed == [] {
      assert opening + relayed == opening;
    }
    assert |opening + relayed| > 0 && (opening + relayed)[|opening + relayed| - 1].stage == EstimatingDepth;
    AdvancingJoined(opening + relayed, Closing);
  }

  lemma ScheduleNeverFails(env: Collaborators)
    ensures forall i | 0 <= i < |ScheduledReports(env)| :: ScheduledReports(env)[i].stage != Failed
  {
    var opening, relayed := Opening(env), Relay(env.estimate.events);
    OpeningAdvances(env);
    ClosingAdvances();
    NeverFailedJoined(opening, relayed);
    NeverFailedJoined(opening + relayed, Closing);
  }

  predicate NeverFailed(rs: seq<Snapshot>) {
    forall i | 0 <= i < |rs| :: rs[i].stage != Failed
  }

  lemma NeverFailedJoined(a: seq<Snapshot>, b: seq<Snapshot>)
    requires NeverFailed(a) && NeverFailed(b)
    ensures NeverFailed(a + b)
  {
    forall i | 0 <= i < |a + b| ensures (a + b)[i].stage != Failed {
      if i >= |a| { assert (a + b)[i] == b[i - |a|]; }
    }
  }

  /** Whatever the collaborators do, as long as the estimator's callbacks do
      not go backwards, no report of a job is behind any earlier one. */
  lemma RunAdvances(c: JobConfig, env: Collaborators, device: string)
    requires Orderly(env.estimate.events)
    ensures var rs := Run(c, env, device).reports;
      forall i, j | 0 <= i < j < |rs| :: NoEarlier(rs[i], rs[j])
  {
    RunFollows(c, env, device);
    RunEnds(c, env, device);
    ScheduleAdvances(env);
    TraceAdvances(Run(c, env, device), ScheduledReports(env));
  }

  /** A trace that reports the whole schedule, or a prefix of it and then
      FAILED, never reports backwards when the schedule does not. */
  lemma TraceAdvances(t: Trace, sched: seq<Snapshot>)
    requires Advancing(sched)
    requires t.result.success ==> t.reports == sched
    requires !t.result.success ==>
      |t.reports| > 0 && t.reports[..|t.reports| - 1] <= sched && t.reports[|t.reports| - 1].stage == Failed
    requires forall i | 0 <= i < |sched| :: sched[i].stage != Failed
    ensures forall i, j | 0 <= i < j < |t.reports| :: NoEarlier(t.reports[i], t.reports[j])
  {
    if t.result.success {
      AdvancingIsOrdered(t.reports);
    } else {
      var front := t.reports[..|t.reports| - 1];
      AdvancingPrefix(front, sched);
      assert t.reports == front + [t.reports[|t.reports| - 1]];
      if front != [] {
        assert front[|front| - 1] == sched[|front| - 1];
      }
      AdvancingJoined(front, [t.reports[|t.reports| - 1]]);
      AdvancingIsOrdered(t.reports);
    }
  }
}
