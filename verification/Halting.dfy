/** With nothing new coming in, the workers halt, and every business costs a bounded number of runs. */
module Halting {
  import opened Jobs
  import opened Pipeline
  import opened Sequences
  import opened Retries

  /** A step a worker takes on its own; producers and relays are quiet. */
  predicate WorkerStep(step: Step) {
    step.CommitBatch? || step.Pop? || step.StoreScore? || step.HandOff? ||
    step.Finish? || step.Fail? || step.Requeue? || step.Die?
  }

  /**
   What one run may cost in all: itself, and the child it may leave behind with its own three runs.
   `d` is what each step inside a run weighs besides the start: 0 to count starts, 1 to count steps.
   */
  function RunCost(kind: Kind, d: nat): nat {
    1 + 4 * d + ChildCost(kind, d)
  }

  function ChildCost(kind: Kind, d: nat): nat
    decreases Rank(kind)
  {
    match kind
    case WebsiteCrawl => 3 * (1 + 4 * d + ChildCost(AIAudit, d))
    case AIAudit => 3 * (1 + 4 * d + ChildCost(RuleScoring, d))
    case RuleScoring => 3 * (1 + 4 * d + ChildCost(GenRecommendation, d))
    case GenRecommendation => 3 * (1 + 4 * d + ChildCost(EmbedLead, d))
    case _ => 0
  }

  /** How many stages of the chain are still ahead. */
  function Rank(kind: Kind): nat {
    match kind
    case WebsiteCrawl => 4
    case AIAudit => 3
    case RuleScoring => 2
    case GenRecommendation => 1
    case _ => 0
  }

  /** `n` times `cost`, in a form the proofs can unfold. */
  function Times(n: nat, cost: nat): nat {
    if n == 0 then 0 else cost + Times(n - 1, cost)
  }

  /** Starts this job has left. */
  function Left(job: Job): nat {
    if Budget(job.maxRetries) > job.retries >= 0 then Budget(job.maxRetries) - job.retries else 0
  }

  /** Which jobs are counted: all of them, or one business's. */
  predicate Counts(only: Option<nat>, job: Job) {
    only.None? || job.business == only.value
  }

  function EntryCost(only: Option<nat>, d: nat): Entry -> nat {
    (e: Entry) =>
      match e
      case Raw(_) => if only.None? then 1 else 0
      case Stored(job) => if Counts(only, job) then Times(Left(job), RunCost(job.kind, d)) else 0
  }

  function StageCost(r: Run, d: nat): nat {
    match r.stage
    case Running => ChildCost(r.job.kind, d) + 4 * d
    case Written => ChildCost(r.job.kind, d) + 3 * d
    case HandedOff => 2 * d
    case Failing => d
  }

  function InFlightCost(only: Option<nat>, d: nat): Run -> nat {
    (r: Run) =>
      if Counts(only, r.job)
      then StageCost(r, d) + if Left(r.job) > 0 then Times(Left(r.job) - 1, RunCost(r.job.kind, d)) else 0
      else 0
  }

  function Potential(s: State, only: Option<nat>, d: nat): nat {
    Sum(s.redis.main, EntryCost(only, d)) + Sum(s.inflight, InFlightCost(only, d))
  }

  /** This step starts a counted job, or uses up a counted entry. */
  predicate Starts(s: State, step: Step, only: Option<nat>) {
    && step.Pop? && s.redis.main != []
    && match s.redis.main[|s.redis.main| - 1]
       case Raw(_) => only.None?
       case Stored(job) => Counts(only, job)
  }

  /** What a step must pay: one for a start, `d` for any other step when every job is counted. */
  function Price(s: State, step: Step, only: Option<nat>, d: nat): nat {
    if Starts(s, step, only) then 1
    else if only.None? && !step.Pop? then d
    else 0
  }

  /** An entry with a start left pays for the run it becomes, and for that start. */
  lemma StartShift(job: Job, only: Option<nat>, d: nat)
    requires Left(job) > 0
    ensures InFlightCost(only, d)(Run(job, Running)) + (if Counts(only, job) then 1 else 0) <= EntryCost(only, d)(Stored(job))
  {
  }

  /** A failed run pays for its job's new place. */
  lemma RequeueShift(r: Run, cause: Option<string>, only: Option<nat>, d: nat)
    requires r.stage == Failing && r.job.maxRetries != 0 && 0 <= r.job.retries < Budget(r.job.maxRetries)
    ensures (if Exhausted(Bumped(r.job, cause)) then 0 else EntryCost(only, d)(Stored(Bumped(r.job, cause))))
              + (if only.None? then d else 0) <= InFlightCost(only, d)(r)
  {
  }

  lemma QueuedHasStarts(s: State)
    requires RetryInv(s) && s.redis.main != [] && s.redis.main[|s.redis.main| - 1].Stored?
    ensures Left(s.redis.main[|s.redis.main| - 1].job) > 0
  {
    assert QueuedOk(s, s.redis.main[|s.redis.main| - 1].job);
  }

  lemma PopPays(s: State, delivered: bool, only: Option<nat>, d: nat)
    requires RetryInv(s) && Enabled(s, Pop(delivered))
    ensures Potential(PopEffect(s, delivered), only, d) + Price(s, Pop(delivered), only, d) <= Potential(s, only, d)
  {
    hide RetryInv, Left, StageCost, RunCost, Times, Sum;
    var last := s.redis.main[|s.redis.main| - 1];
    SumDropLast(s.redis.main, EntryCost(only, d));
    if last.Stored? {
      QueuedHasStarts(s);
      StartShift(last.job, only, d);
      SumAppend(s.inflight, [Run(last.job, Running)], InFlightCost(only, d));
      SumOne(Run(last.job, Running), InFlightCost(only, d));
    }
  }

  lemma StagePays(s: State, run: nat, stage: Stage, only: Option<nat>, d: nat)
    requires IsRunning(s, run)
    requires StageCost(s.inflight[run].(stage := stage), d) + d <= StageCost(s.inflight[run], d)
    ensures Potential(WithStage(s, run, stage), only, d) + (if only.None? then d else 0) <= Potential(s, only, d)
  {
    SumUpdate(s.inflight, run, s.inflight[run].(stage := stage), InFlightCost(only, d));
  }

  lemma LeavePays(s: State, run: nat, only: Option<nat>, d: nat)
    requires IsRunning(s, run)
    ensures Sum(Without(s.inflight, run), InFlightCost(only, d)) + InFlightCost(only, d)(s.inflight[run])
              == Sum(s.inflight, InFlightCost(only, d))
    ensures StageCost(s.inflight[run], d) >= d
  {
    SumWithout(s.inflight, run, InFlightCost(only, d));
  }

  lemma TimesThree(cost: nat)
    ensures Times(3, cost) == 3 * cost
  {
    assert Times(1, cost) == cost;
    assert Times(2, cost) == cost + Times(1, cost);
  }

  lemma ChildIsPaidFor(run: Run, child: Kind, id: nat, d: nat)
    requires MayHandOff(run, child)
    ensures Times(Left(Prepared(ChildOf(run.job, child), id)), RunCost(child, d)) <= ChildCost(run.job.kind, d)
  {
    var job := Prepared(ChildOf(run.job, child), id);
    assert Left(job) == 3;
    TimesThree(RunCost(child, d));
  }

  /** What the run gives up covers the child it pushes. */
  lemma HandOffShift(r: Run, child: Kind, stage: Stage, e: Entry, only: Option<nat>, d: nat)
    requires MayHandOff(r, child) && (stage == HandedOff || stage == Failing)
    requires e.Stored? && exists id :: e.job == Prepared(ChildOf(r.job, child), id)
    ensures EntryCost(only, d)(e) + InFlightCost(only, d)(r.(stage := stage)) + (if only.None? then d else 0)
              <= InFlightCost(only, d)(r)
  {
    var id :| e.job == Prepared(ChildOf(r.job, child), id);
    ChildIsPaidFor(r, child, id, d);
  }

  lemma HandOffMoves(s: State, run: nat, child: Kind, reply: Reply)
    requires IsRunning(s, run)
    ensures var r, t := s.inflight[run], HandOffEffect(s, run, child, reply);
            && t.redis.main == (if reply.Refused? then s.redis.main
                                else [Stored(Prepared(ChildOf(r.job, child), s.redis.issued + 1))] + s.redis.main)
            && t.inflight == s.inflight[run := r.(stage := if reply.Acked? then HandedOff else Failing)]
  {
  }

  lemma HandOffPays(s: State, run: nat, child: Kind, reply: Reply, only: Option<nat>, d: nat)
    requires RetryInv(s) && Enabled(s, HandOff(run, child, reply))
    ensures Potential(HandOffEffect(s, run, child, reply), only, d) + Price(s, HandOff(run, child, reply), only, d)
              <= Potential(s, only, d)
  {
    var r := s.inflight[run];
    var stage := if reply.Acked? then HandedOff else Failing;
    var e := Stored(Prepared(ChildOf(r.job, child), s.redis.issued + 1));
    var t := HandOffEffect(s, run, child, reply);
    HandOffMoves(s, run, child, reply);
    HandOffShift(r, child, stage, e, only, d);
    hide HandOffEffect, RetryInv, EntryCost, InFlightCost;
    SumPush(e, s.redis.main, EntryCost(only, d));
    SumUpdate(s.inflight, run, r.(stage := stage), InFlightCost(only, d));
  }

  lemma RequeuePays(s: State, run: nat, cause: Option<string>, reply: Reply, only: Option<nat>, d: nat)
    requires RetryInv(s) && Enabled(s, Requeue(run, cause, reply))
    ensures Potential(RequeueEffect(s, run, cause, reply), only, d) + Price(s, Requeue(run, cause, reply), only, d)
              <= Potential(s, only, d)
  {
    var job := s.inflight[run].job;
    RunIsEnqueued(s, run);
    RequeueWhere(s.redis, job, cause, reply);
    RequeueShift(s.inflight[run], cause, only, d);
    hide RetryInv, Known, RequeueTo, EnqueueTo, EntryCost, InFlightCost;
    LeavePays(s, run, only, d);
    SumPush(Stored(Bumped(job, cause)), s.redis.main, EntryCost(only, d));
  }

  lemma StageStepPays(s: State, step: Step, only: Option<nat>, d: nat)
    requires Enabled(s, step) && (step.CommitBatch? || step.StoreScore? || step.Fail?)
    ensures Potential(Apply(s, step), only, d) + Price(s, step, only, d) <= Potential(s, only, d)
  {
    hide Sum, ChildCost;
    StagePays(s, step.run, if step.Fail? then Failing else Written, only, d);
  }

  lemma LeaveStepPays(s: State, step: Step, only: Option<nat>, d: nat)
    requires Enabled(s, step) && (step.Finish? || step.Die?)
    ensures Potential(Apply(s, step), only, d) + Price(s, step, only, d) <= Potential(s, only, d)
  {
    hide Sum, ChildCost;
    LeavePays(s, step.run, only, d);
  }

  lemma StepPays(s: State, step: Step, only: Option<nat>, d: nat)
    requires RetryInv(s) && Enabled(s, step) && WorkerStep(step)
    ensures Potential(Apply(s, step), only, d) + Price(s, step, only, d) <= Potential(s, only, d)
  {
    hide RetryInv, Potential, Price;
    match step
    case Pop(delivered) => PopPays(s, delivered, only, d);
    case HandOff(run, child, reply) => HandOffPays(s, run, child, reply, only, d);
    case Requeue(run, cause, reply) => RequeuePays(s, run, cause, reply, only, d);
    case Finish(_) => LeaveStepPays(s, step, only, d);
    case Die(_) => LeaveStepPays(s, step, only, d);
    case _ => StageStepPays(s, step, only, d);
  }

  /******* Whole runs *******/

  /** How many of this run's steps start a counted job. */
  ghost function CountStarts(s: State, steps: seq<Step>, t: State, only: Option<nat>): nat
    requires Runs(s, steps, t)
    decreases steps
  {
    if steps == [] then 0
    else (if Starts(s, steps[0], only) then 1 else 0) + CountStarts(Apply(s, steps[0]), steps[1..], t, only)
  }

  lemma {:induction false} RunPays(s: State, steps: seq<Step>, t: State, only: Option<nat>)
    requires RetryInv(s) && Runs(s, steps, t) && forall step :: step in steps ==> WorkerStep(step)
    ensures only.None? ==> |steps| <= Potential(s, only, 1)
    ensures CountStarts(s, steps, t, only) <= Potential(s, only, 0)
    decreases steps
  {
    if steps != [] {
      StepPays(s, steps[0], only, 0);
      StepPays(s, steps[0], only, 1);
      StepKeepsRetries(s, steps[0]);
      RunPays(Apply(s, steps[0]), steps[1..], t, only);
    }
  }

  /** Left to themselves from any reachable state, the workers take a bounded number of steps, then halt. */
  lemma WorkersHalt(s: State, work: seq<Step>, t: State)
    requires Reachable(s) && Runs(s, work, t)
    requires forall step :: step in work ==> WorkerStep(step)
    ensures |work| <= Potential(s, None, 1)
  {
    ReachableRetries(s);
    RunPays(s, work, t, None);
  }

  /** Jobs of one business still queued or running. */
  function Mine(b: nat): Entry -> nat {
    (e: Entry) => if e.Stored? && e.job.business == b then 1 else 0
  }

  function MineRunning(b: nat): Run -> nat {
    (r: Run) => if r.job.business == b then 1 else 0
  }

  function Pending(s: State, b: nat): nat {
    Sum(s.redis.main, Mine(b)) + Sum(s.inflight, MineRunning(b))
  }

  lemma CostNumbers(kind: Kind)
    ensures RunCost(kind, 0) <= 121 && RunCost(WebsiteCrawl, 0) == 121
    ensures RunCost(RuleScoring, 0) == 13
  {
    assert RunCost(GenRecommendation, 0) == 4;
    assert RunCost(RuleScoring, 0) == 13;
    assert RunCost(AIAudit, 0) == 40;
  }

  /** A job costs at most 121 starts for each attempt it has left. */
  lemma {:induction false} TimesBound(n: nat, cost: nat)
    requires cost <= 121
    ensures Times(n, cost) <= 121 * n
  {
    if n > 0 { TimesBound(n - 1, cost); }
  }

  lemma JobCost(job: Job)
    ensures Times(Left(job), RunCost(job.kind, 0)) <= 121 * Left(job)
    ensures Left(job) > 0 ==> ChildCost(job.kind, 0) + Times(Left(job) - 1, RunCost(job.kind, 0)) <= 121 * Left(job)
  {
    CostNumbers(job.kind);
    TimesBound(Left(job), RunCost(job.kind, 0));
    if Left(job) > 0 { TimesBound(Left(job) - 1, RunCost(job.kind, 0)); }
  }

  /** The starts left to this business's queued and running jobs, those under way included. */
  function LeftIn(b: nat): Entry -> nat {
    (e: Entry) => if e.Stored? && e.job.business == b then Left(e.job) else 0
  }

  function LeftRunning(b: nat): Run -> nat {
    (r: Run) => if r.job.business == b then Left(r.job) else 0
  }

  function AttemptsLeft(s: State, b: nat): nat {
    Sum(s.redis.main, LeftIn(b)) + Sum(s.inflight, LeftRunning(b))
  }

  lemma PotentialPerAttempt(s: State, b: nat)
    requires PlacesOk(s)
    ensures Potential(s, Some(b), 0) <= 121 * AttemptsLeft(s, b)
  {
    forall e | e in s.redis.main ensures EntryCost(Some(b), 0)(e) <= 121 * LeftIn(b)(e) {
      if e.Stored? && e.job.business == b { JobCost(e.job); }
    }
    SumBound(s.redis.main, EntryCost(Some(b), 0), 121, LeftIn(b));
    forall r | r in s.inflight ensures InFlightCost(Some(b), 0)(r) <= 121 * LeftRunning(b)(r) {
      if r.job.business == b {
        assert RunningOk(s, r.job);
        JobCost(r.job);
      }
    }
    SumBound(s.inflight, InFlightCost(Some(b), 0), 121, LeftRunning(b));
  }

  predicate DefaultRetries(s: State, b: nat) {
    && (forall e :: e in s.redis.main && e.Stored? && e.job.business == b ==> e.job.maxRetries == 3)
    && (forall r :: r in s.inflight && r.job.business == b ==> r.job.maxRetries == 3)
  }

  lemma DefaultAttempts(s: State, b: nat)
    requires DefaultRetries(s, b)
    ensures AttemptsLeft(s, b) <= 3 * Pending(s, b)
  {
    SumBound(s.redis.main, LeftIn(b), 3, Mine(b));
    SumBound(s.inflight, LeftRunning(b), 3, MineRunning(b));
  }

  /**
   A business costs at most 121 further handler runs per attempt its queued and running jobs have left,
   even if every push a handler makes is reported as failed: 363 per job with the default retries.
   */
  lemma RunsPerBusiness(s: State, work: seq<Step>, t: State, b: nat)
    requires Reachable(s) && Runs(s, work, t)
    requires forall step :: step in work ==> WorkerStep(step)
    ensures CountStarts(s, work, t, Some(b)) <= 121 * AttemptsLeft(s, b)
    ensures DefaultRetries(s, b) ==> CountStarts(s, work, t, Some(b)) <= 363 * Pending(s, b)
  {
    ReachableRetries(s);
    RunPays(s, work, t, Some(b));
    PotentialPerAttempt(s, b);
    if DefaultRetries(s, b) { DefaultAttempts(s, b); }
  }
}
