/** No committed business is ever left without a job, a score, or a place among the jobs known lost. */
module Stranding {
  import opened Jobs
  import opened Pipeline
  import opened Sequences
  import opened Delivery

  /** A job that, if it runs to its end, leads this business to a score. */
  predicate LeadsToScore(job: Job, b: nat) {
    job.business == b && (job.kind == WebsiteCrawl || job.kind == AIAudit || job.kind == RuleScoring)
  }

  ghost predicate InList(list: seq<Entry>, b: nat) {
    exists e :: e in list && e.Stored? && LeadsToScore(e.job, b)
  }

  /** Handed-off runs do not count: they have passed the business on. */
  ghost predicate InFlight(runs: seq<Run>, b: nat) {
    exists r :: r in runs && r.stage != HandedOff && LeadsToScore(r.job, b)
  }

  ghost predicate KnownLost(s: State, b: nat) {
    exists job :: job in s.lost && LeadsToScore(job, b)
  }

  /** The business is carried by something other than its outbox row. */
  ghost predicate Carried(s: State, b: nat) {
    || b in s.scored
    || InList(s.redis.main, b)
    || InList(s.redis.dead, b)
    || InFlight(s.inflight, b)
    || KnownLost(s, b)
  }

  ghost predicate Waiting(s: State, b: nat, row: nat) {
    IsParsed(s, row) && s.outbox[row].status == Unpublished && LeadsToScore(s.outbox[row].payload.job, b)
  }

  /******* Carried is stable *******/

  /** Lists that only grow keep carrying. */
  lemma GrowingKeeps(s: State, t: State, b: nat)
    requires Carried(s, b)
    requires s.scored <= t.scored
    requires forall e :: e in s.redis.main ==> e in t.redis.main
    requires forall e :: e in s.redis.dead ==> e in t.redis.dead
    requires forall r :: r in s.inflight && r.stage != HandedOff && LeadsToScore(r.job, b) ==>
                           r in t.inflight || Carried(t, b)
    requires forall job :: job in s.lost ==> job in t.lost
    ensures Carried(t, b)
  {
    if InList(s.redis.main, b) {
      var e :| e in s.redis.main && e.Stored? && LeadsToScore(e.job, b);
      assert e in t.redis.main;
    } else if InList(s.redis.dead, b) {
      var e :| e in s.redis.dead && e.Stored? && LeadsToScore(e.job, b);
      assert e in t.redis.dead;
    } else if InFlight(s.inflight, b) {
      var r :| r in s.inflight && r.stage != HandedOff && LeadsToScore(r.job, b);
      assert r in t.inflight || Carried(t, b);
    } else if KnownLost(s, b) {
      var job :| job in s.lost && LeadsToScore(job, b);
      assert job in t.lost;
    }
  }

  /** Any step that rewrites run `i` may do so if the run's own business stays carried. */
  lemma RunStepKeeps(s: State, t: State, i: nat, after: Option<Run>, b: nat)
    requires Carried(s, b) && IsRunning(s, i)
    requires s.scored <= t.scored
    requires forall e :: e in s.redis.main ==> e in t.redis.main
    requires forall e :: e in s.redis.dead ==> e in t.redis.dead
    requires forall job :: job in s.lost ==> job in t.lost
    requires t.inflight == if after.Some? then s.inflight[i := after.value] else Without(s.inflight, i)
    requires s.inflight[i].stage != HandedOff && LeadsToScore(s.inflight[i].job, b) ==> Carried(t, b)
    ensures Carried(t, b)
  {
    forall r | r in s.inflight && r.stage != HandedOff && LeadsToScore(r.job, b)
      ensures r in t.inflight || Carried(t, b)
    {
      if r != s.inflight[i] {
        if after.Some? {
          UpdateKeeps(s.inflight, i, after.value, r);
        } else {
          WithoutKeeps(s.inflight, i, r);
        }
      }
    }
    GrowingKeeps(s, t, b);
  }

  lemma PopKeeps(s: State, delivered: bool, b: nat)
    requires Carried(s, b) && s.redis.main != []
    ensures Carried(PopEffect(s, delivered), b)
  {
    var t := PopEffect(s, delivered);
    var n := |s.redis.main| - 1;
    var last := s.redis.main[n];
    if last.Stored? && LeadsToScore(last.job, b) {
      if delivered {
        assert Run(last.job, Running) in t.inflight;
      } else {
        assert last.job in t.lost;
      }
    } else if InList(s.redis.main, b) {
      var e :| e in s.redis.main && e.Stored? && LeadsToScore(e.job, b);
      var j :| 0 <= j <= n && s.redis.main[j] == e;
      assert t.redis.main[j] == e;
    } else {
      GrowingKeepsExceptMain(s, t, b);
    }
  }

  lemma GrowingKeepsExceptMain(s: State, t: State, b: nat)
    requires Carried(s, b) && !InList(s.redis.main, b)
    requires s.scored <= t.scored
    requires forall e :: e in s.redis.dead ==> e in t.redis.dead
    requires forall r :: r in s.inflight ==> r in t.inflight
    requires forall job :: job in s.lost ==> job in t.lost
    ensures Carried(t, b)
  {
    GrowingKeeps(s.(redis := s.redis.(main := [])), t, b) by {
      assert Carried(s.(redis := s.redis.(main := [])), b);
    }
  }

  /** A scoring run past its database write has its business scored. */
  ghost predicate WrittenIsScored(s: State) {
    forall r :: r in s.inflight && r.stage == Written && r.job.kind == RuleScoring ==> r.job.business in s.scored
  }

  lemma HandOffKeeps(s: State, run: nat, child: Kind, reply: Reply, b: nat)
    requires Carried(s, b) && WrittenIsScored(s) && Enabled(s, HandOff(run, child, reply))
    ensures Carried(HandOffEffect(s, run, child, reply), b)
  {
    var t := HandOffEffect(s, run, child, reply);
    var r := s.inflight[run];
    var r' := r.(stage := if reply.Acked? then HandedOff else Failing);
    if r.stage != HandedOff && LeadsToScore(r.job, b) {
      if !reply.Acked? {
        assert t.inflight[run] == r';
        assert r' in t.inflight;
      } else if r.job.kind != RuleScoring {
        assert t.redis.main[0] in t.redis.main;
      }
    }
    RunStepKeeps(s, t, run, Some(r'), b);
  }

  lemma RequeueKeeps(s: State, run: nat, cause: Option<string>, reply: Reply, b: nat)
    requires Carried(s, b) && Enabled(s, Requeue(run, cause, reply))
    ensures Carried(RequeueEffect(s, run, cause, reply), b)
  {
    var t := RequeueEffect(s, run, cause, reply);
    var job := s.inflight[run].job;
    if LeadsToScore(job, b) {
      if reply.Refused? {
        assert job in t.lost;
      } else if Exhausted(Bumped(job, cause)) {
        assert t.redis.dead[0] in t.redis.dead;
      } else {
        assert t.redis.main[0] in t.redis.main;
      }
    }
    RunStepKeeps(s, t, run, None, b);
  }

  lemma DieKeeps(s: State, run: nat, b: nat)
    requires Carried(s, b) && Enabled(s, Die(run))
    ensures Carried(DieEffect(s, run), b)
  {
    var t := DieEffect(s, run);
    var r := s.inflight[run];
    if r.stage != HandedOff && LeadsToScore(r.job, b) {
      assert r.job in t.lost;
    }
    RunStepKeeps(s, t, run, None, b);
  }

  lemma StageKeeps(s: State, run: nat, stage: Stage, b: nat)
    requires Carried(s, b) && IsRunning(s, run) && stage != HandedOff
    ensures Carried(WithStage(s, run, stage), b)
  {
    var t := WithStage(s, run, stage);
    var r' := s.inflight[run].(stage := stage);
    assert t.inflight[run] == r';
    assert r' in t.inflight;
    RunStepKeeps(s, t, run, Some(r'), b);
  }

  /** Steps of relays and producers never take a job out of Redis, a run, or the record of losses. */
  lemma RelaySideKeeps(s: State, step: Step, b: nat)
    requires Carried(s, b) && Enabled(s, step)
    requires RelaySide(step) || step.ApiEnqueue? || step.ForeignPush?
    requires !step.CommitBatch?
    ensures Carried(Apply(s, step), b)
  {
    GrowingKeeps(s, Apply(s, step), b);
  }

  lemma CarriedIsStable(s: State, step: Step, b: nat)
    requires Carried(s, b) && WrittenIsScored(s) && Enabled(s, step)
    ensures Carried(Apply(s, step), b)
  {
    match step
    case CommitBatch(run, rows) =>
      StageKeeps(s, run, Written, b);
      GrowingKeeps(WithStage(s, run, Written), Apply(s, step), b);
    case Pop(delivered) => PopKeeps(s, delivered, b);
    case StoreScore(run) =>
      StageKeeps(s, run, Written, b);
      GrowingKeeps(WithStage(s, run, Written), Apply(s, step), b);
    case HandOff(run, child, reply) => HandOffKeeps(s, run, child, reply, b);
    case Finish(run) => RunStepKeeps(s, Apply(s, step), run, None, b);
    case Fail(run) => StageKeeps(s, run, Failing, b);
    case Requeue(run, cause, reply) => RequeueKeeps(s, run, cause, reply, b);
    case Die(run) => DieKeeps(s, run, b);
    case _ => RelaySideKeeps(s, step, b);
  }

  /******* The invariant *******/

  ghost predicate PushedIsCarried(s: State) {
    && (forall row :: row in s.pushes ==> row in s.outbox)
    && (forall row, b :: row in s.pushes && IsParsed(s, row) && LeadsToScore(s.outbox[row].payload.job, b)
          ==> Carried(s, b))
  }

  /** Every committed business has the outbox row it was committed with. */
  ghost predicate CommittedHasRow(s: State) {
    forall b :: b in s.committed ==> exists row :: IsParsed(s, row) && LeadsToScore(s.outbox[row].payload.job, b)
  }

  predicate PayloadsStay(s: State, t: State) {
    forall row :: row in s.outbox ==> row in t.outbox && t.outbox[row].payload == s.outbox[row].payload
  }

  lemma StepKeepsPayloads(s: State, step: Step)
    requires Enabled(s, step)
    ensures PayloadsStay(s, Apply(s, step))
  {
  }

  lemma StepKeepsWritten(s: State, step: Step)
    requires WrittenIsScored(s) && Enabled(s, step)
    ensures WrittenIsScored(Apply(s, step))
  {
    hide CommitClaimEffect, AbortClaimEffect, RecordFailureEffect, PurgeEffect, PublishEffect, Send;
    hide EnqueueTo, RequeueTo, IsNextBatch, Locked;
  }

  lemma StepKeepsCommitted(s: State, step: Step)
    requires CommittedHasRow(s) && Enabled(s, step)
    ensures CommittedHasRow(Apply(s, step))
  {
    var t := Apply(s, step);
    StepKeepsPayloads(s, step);
    forall b | b in t.committed
      ensures exists row :: IsParsed(t, row) && LeadsToScore(t.outbox[row].payload.job, b)
    {
      if b in s.committed {
        var row :| IsParsed(s, row) && LeadsToScore(s.outbox[row].payload.job, b);
        assert IsParsed(t, row);
      } else {
        var row :| row in step.rows && step.rows[row].business == b;
        assert t.outbox[row].payload == Parsed(step.rows[row]);
        assert IsParsed(t, row);
      }
    }
  }

  /** A push that took effect leaves the job in the main list. */
  lemma NewPushIsListed(s: State, step: Step, row: nat)
    requires Enabled(s, step) && row in Apply(s, step).pushes && row !in s.pushes
    ensures IsParsed(s, row)
    ensures forall b :: LeadsToScore(s.outbox[row].payload.job, b) ==> InList(Apply(s, step).redis.main, b)
  {
    var t := Apply(s, step);
    assert step.Publish?;
    forall b | LeadsToScore(s.outbox[row].payload.job, b) ensures InList(t.redis.main, b) {
      assert t.redis.main[0] in t.redis.main;
    }
  }

  lemma StepKeepsPushed(s: State, step: Step)
    requires PushedIsCarried(s) && WrittenIsScored(s) && Enabled(s, step)
    ensures PushedIsCarried(Apply(s, step))
  {
    var t := Apply(s, step);
    StepKeepsPayloads(s, step);
    forall row | row in t.pushes
      ensures row in t.outbox
      ensures forall b :: IsParsed(t, row) && LeadsToScore(t.outbox[row].payload.job, b) ==> Carried(t, b)
    {
      if row !in s.pushes {
        NewPushIsListed(s, step, row);
      } else {
        forall b | IsParsed(t, row) && LeadsToScore(t.outbox[row].payload.job, b) ensures Carried(t, b) {
          assert Carried(s, b);
          CarriedIsStable(s, step, b);
        }
      }
    }
  }

  lemma {:induction false} RunKeepsCover(s: State, steps: seq<Step>, t: State)
    requires PushedIsCarried(s) && WrittenIsScored(s) && CommittedHasRow(s) && Runs(s, steps, t)
    ensures PushedIsCarried(t) && WrittenIsScored(t) && CommittedHasRow(t)
    decreases steps
  {
    if steps != [] {
      StepKeepsPushed(s, steps[0]);
      StepKeepsWritten(s, steps[0]);
      StepKeepsCommitted(s, steps[0]);
      RunKeepsCover(Apply(s, steps[0]), steps[1..], t);
    }
  }

  /**
   No stranding: in every reachable state, each committed business has an unpublished outbox row, or a
   queued, running or dead job that leads to its score, or a stored score, or such a job among the lost.
   */
  lemma NoStranding(s: State, b: nat)
    requires Reachable(s) && b in s.committed
    ensures Carried(s, b) || exists row :: Waiting(s, b, row)
  {
    ReachableIsSafe(s);
    var steps :| Runs(INIT, steps, s);
    RunKeepsCover(INIT, steps, s);
    var row :| IsParsed(s, row) && LeadsToScore(s.outbox[row].payload.job, b);
    if s.outbox[row].status == Unpublished {
      assert Waiting(s, b, row);
    } else {
      assert AccountedFor(s, row);
      assert row in s.pushes;
    }
  }

  /** Only a lost pop, a worker's death before its hand-off, and a refused requeue add to the lost jobs. */
  lemma WhatLosesJobs(s: State, step: Step)
    requires Enabled(s, step)
    ensures Apply(s, step).lost != s.lost ==>
              || step == Pop(false)
              || (step.Die? && s.inflight[step.run].stage != HandedOff)
              || (step.Requeue? && step.reply == Refused)
    ensures forall job :: job in s.lost ==> job in Apply(s, step).lost
  {
  }
}
