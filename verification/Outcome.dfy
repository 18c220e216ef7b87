/** What has become of every committed business once the outbox is drained and the workers are idle. */
module Outcome {
  import opened Jobs
  import opened Pipeline
  import opened Sequences
  import opened Delivery
  import opened Retries
  import opened Halting
  import opened Stranding
  import Relay

  /** Nothing is left for a worker to do; a worker can always die, which does not count as work. */
  ghost predicate Idle(s: State) {
    forall step :: WorkerStep(step) && !step.Die? ==> !Enabled(s, step)
  }

  ghost predicate Drained(s: State) {
    Relay.UnpublishedRows(s) == {}
  }

  /** Every running handler can fail, and every failed one can be requeued. */
  lemma IdleMeansEmpty(s: State)
    ensures Idle(s) <==> s.redis.main == [] && s.inflight == []
  {
    if Idle(s) {
      assert !Enabled(s, Pop(true));
      assert !Enabled(s, Fail(0));
      assert !Enabled(s, Requeue(0, None, Acked));
    }
  }

  /**
   When the outbox is drained and the workers have halted, every committed business has a stored score,
   or a dead-lettered job, or a job among the lost ones. There is no fourth case.
   */
  lemma EveryBusinessIsSettled(s: State, b: nat)
    requires Reachable(s) && Drained(s) && Idle(s) && b in s.committed
    ensures b in s.scored || InList(s.redis.dead, b) || KnownLost(s, b)
  {
    NoStranding(s, b);
    IdleMeansEmpty(s);
    forall row ensures !Waiting(s, b, row) {
      assert row !in Relay.UnpublishedRows(s);
    }
  }

  /******* The end is never out of reach *******/

  predicate RelayStep(step: Step) {
    step.BeginClaim? || step.Publish? || step.CommitClaim? || step.AbortClaim? || step.GiveUpReport?
  }

  /** A run of relays and workers alone that commits nothing new and loses nothing. */
  ghost predicate Works(s: State, steps: seq<Step>, t: State) {
    && Runs(s, steps, t)
    && (forall step :: step in steps ==> RelayStep(step) || WorkerStep(step))
    && t.lost == s.lost && t.committed == s.committed
  }

  lemma WorksOn(s: State, step: Step, steps: seq<Step>, t: State)
    requires Enabled(s, step) && (RelayStep(step) || WorkerStep(step))
    requires Apply(s, step).lost == s.lost && Apply(s, step).committed == s.committed
    requires Works(Apply(s, step), steps, t)
    ensures Works(s, [step] + steps, t)
  {
    assert ([step] + steps)[1..] == steps;
  }

  lemma WorksAppend(s: State, first: seq<Step>, t: State, second: seq<Step>, u: State)
    requires Works(s, first, t) && Works(t, second, u)
    ensures Works(s, first + second, u)
  {
    RunsAppend(s, first, t, second, u);
  }

  /** Every open claim can be aborted. */
  lemma {:induction false} CloseClaims(s: State) returns (steps: seq<Step>, t: State)
    requires Safe(s) && RetryInv(s)
    ensures Works(s, steps, t) && Safe(t) && RetryInv(t) && t.claims == map[] && RunsUntouched(s, t)
    decreases |s.claims|
  {
    if s.claims == map[] {
      steps, t := [], s;
    } else {
      var a :| a in s.claims;
      assert ClaimOk(s, s.claims[a]);
      var u := Apply(s, AbortClaim(a));
      StepKeeps(s, AbortClaim(a));
      StepKeepsRetries(s, AbortClaim(a));
      assert u.claims.Keys == s.claims.Keys - {a};
      assert |u.claims| == |u.claims.Keys| && |s.claims| == |s.claims.Keys|;
      steps, t := CloseClaims(u);
      WorksOn(s, AbortClaim(a), steps, t);
      steps := [AbortClaim(a)] + steps;
    }
  }

  predicate NothingLost(s: State, t: State) {
    t.lost == s.lost && t.committed == s.committed
  }

  /** Relays touch neither the runs nor the dead list. */
  predicate RunsUntouched(s: State, t: State) {
    t.inflight == s.inflight && t.redis.dead == s.redis.dead
  }

  /** With no claim open, relay 0 can claim the least unpublished row, */
  lemma LeastCanBeClaimed(s: State, row: nat)
    requires s.claims == map[] && 0 !in s.reports
    requires Relay.IsLeast(row, Relay.UnpublishedRows(s))
    ensures row in s.outbox && Enabled(s, BeginClaim(0, 1, [row]))
    ensures Apply(s, BeginClaim(0, 1, [row])) == s.(claims := map[0 := Claim([row], 0, Scanning)])
  {
    assert forall other :: Claimable(s, other) ==> other in Relay.UnpublishedRows(s);
    assert IsNextBatch(s, [row], 1);
  }

  /** push it, */
  lemma ClaimedCanBePushed(s: State, row: nat)
    requires s.claims == map[0 := Claim([row], 0, Scanning)] && row in s.outbox
    ensures Enabled(s, Publish(0, Acked))
    ensures var t := Apply(s, Publish(0, Acked));
            && t.claims == map[0 := Claim([row], 1, Scanning)]
            && t.outbox == s.outbox && t.reports == s.reports && NothingLost(s, t) && RunsUntouched(s, t)
  {
    assert map[0 := Claim([row], 0, Scanning)][0 := Claim([row], 1, Scanning)] == map[0 := Claim([row], 1, Scanning)];
  }

  /** and mark it published. */
  lemma PushedCanBePublished(s: State, row: nat)
    requires s.claims == map[0 := Claim([row], 1, Scanning)] && row in s.outbox
    ensures Enabled(s, CommitClaim(0))
    ensures var t := Apply(s, CommitClaim(0));
            && t.claims == map[] && t.reports == s.reports && NothingLost(s, t) && RunsUntouched(s, t)
            && t.outbox == s.outbox[row := s.outbox[row].(status := Published)]
  {
    assert [row][..1] == [row];
  }

  lemma PublishLeast(s: State, row: nat) returns (steps: seq<Step>, t: State)
    requires Safe(s) && RetryInv(s) && s.claims == map[] && 0 !in s.reports
    requires Relay.IsLeast(row, Relay.UnpublishedRows(s))
    ensures Works(s, steps, t) && Safe(t) && RetryInv(t) && t.claims == map[] && 0 !in t.reports && RunsUntouched(s, t)
    ensures Relay.UnpublishedRows(t) == Relay.UnpublishedRows(s) - {row}
  {
    LeastCanBeClaimed(s, row);
    hide Enabled, Apply, Safe, RetryInv, Works, Relay.IsLeast;
    var s1 := Apply(s, BeginClaim(0, 1, [row]));
    ClaimedCanBePushed(s1, row);
    var s2 := Apply(s1, Publish(0, Acked));
    PushedCanBePublished(s2, row);
    t := Apply(s2, CommitClaim(0));
    Advance(s, BeginClaim(0, 1, [row]));
    Advance(s1, Publish(0, Acked));
    Advance(s2, CommitClaim(0));
    WorksNot(t);
    WorksOn(s2, CommitClaim(0), [], t);
    WorksOn(s1, Publish(0, Acked), [CommitClaim(0)] + [], t);
    WorksOn(s, BeginClaim(0, 1, [row]), [Publish(0, Acked)] + ([CommitClaim(0)] + []), t);
    steps := [BeginClaim(0, 1, [row])] + ([Publish(0, Acked)] + ([CommitClaim(0)] + []));
    OneLeftTheUnpublished(s, t, row);
  }

  lemma Advance(s: State, step: Step)
    requires Safe(s) && RetryInv(s) && Enabled(s, step)
    ensures Safe(Apply(s, step)) && RetryInv(Apply(s, step))
  {
    StepKeeps(s, step);
    StepKeepsRetries(s, step);
  }

  lemma WorksNot(s: State)
    ensures Works(s, [], s)
  {
  }

  lemma OneLeftTheUnpublished(s: State, t: State, row: nat)
    requires row in s.outbox && t.outbox == s.outbox[row := s.outbox[row].(status := Published)]
    ensures Relay.UnpublishedRows(t) == Relay.UnpublishedRows(s) - {row}
  {
  }

  lemma {:induction false} DrainOutbox(s: State) returns (steps: seq<Step>, t: State)
    requires Safe(s) && RetryInv(s) && s.claims == map[] && 0 !in s.reports
    ensures Works(s, steps, t) && Safe(t) && RetryInv(t) && Drained(t) && RunsUntouched(s, t)
    decreases Relay.UnpublishedRows(s)
  {
    if Drained(s) {
      steps, t := [], s;
    } else {
      var row := Relay.Least(Relay.UnpublishedRows(s));
      var first, u := PublishLeast(s, row);
      var rest;
      rest, t := DrainOutbox(u);
      WorksAppend(s, first, u, rest, t);
      steps := first + rest;
    }
  }

  /** The stages each kind of handler can be in. */
  predicate StageFits(r: Run) {
    match r.stage
    case Written => r.job.kind == CollectBusiness || r.job.kind == RuleScoring
    case HandedOff => r.job.kind == WebsiteCrawl || r.job.kind == AIAudit || r.job.kind == RuleScoring || r.job.kind == GenRecommendation
    case _ => true
  }

  ghost predicate StagesFit(s: State) {
    forall r :: r in s.inflight ==> StageFits(r)
  }

  lemma StepKeepsStages(s: State, step: Step)
    requires StagesFit(s) && Enabled(s, step)
    ensures StagesFit(Apply(s, step))
  {
    hide CommitClaimEffect, AbortClaimEffect, RecordFailureEffect, PurgeEffect, PublishEffect, Send;
    hide EnqueueTo, RequeueTo, IsNextBatch, Locked, StageFits;
    match step
    case CommitBatch(run, _) => assert StageFits(s.inflight[run].(stage := Written)) by { CommitStage(s, step); }
    case StoreScore(run) => assert StageFits(s.inflight[run].(stage := Written)) by { CommitStage(s, step); }
    case HandOff(run, child, reply) => HandOffStage(s.inflight[run], child);
    case Fail(run) => FailingFits(s.inflight[run].job);
    case Pop(_) => PopStage(s);
    case _ =>
  }

  lemma CommitStage(s: State, step: Step)
    requires Enabled(s, step) && (step.CommitBatch? || step.StoreScore?)
    ensures StageFits(s.inflight[step.run].(stage := Written))
  {
  }

  lemma HandOffStage(r: Run, child: Kind)
    requires MayHandOff(r, child)
    ensures StageFits(r.(stage := HandedOff)) && StageFits(r.(stage := Failing))
  {
  }

  lemma FailingFits(job: Job)
    ensures StageFits(Run(job, Failing)) && StageFits(Run(job, Running))
  {
  }

  lemma PopStage(s: State)
    requires s.redis.main != []
    ensures var last := s.redis.main[|s.redis.main| - 1]; last.Stored? ==> StageFits(Run(last.job, Running))
  {
  }

  lemma {:induction false} RunKeepsStages(s: State, steps: seq<Step>, t: State)
    requires StagesFit(s) && Runs(s, steps, t)
    ensures StagesFit(t)
    decreases steps
  {
    hide Enabled, Apply, StagesFit;
    if steps != [] {
      StepKeepsStages(s, steps[0]);
      RunKeepsStages(Apply(s, steps[0]), steps[1..], t);
    }
  }

  lemma ReachableStages(s: State)
    requires Reachable(s)
    ensures StagesFit(s)
  {
    var steps :| Runs(INIT, steps, s);
    RunKeepsStages(INIT, steps, s);
  }

  /**
   What workers do next if nothing goes wrong any more: a job that has failed is requeued, every other one
   succeeds, without an audit, and a collection finds nothing new.
   */
  function NextWork(s: State): Step {
    if s.inflight == [] then Pop(true)
    else
      var r := s.inflight[0];
      match r.stage
      case Failing => Requeue(0, None, Acked)
      case HandedOff => Finish(0)
      case Written => if r.job.kind == RuleScoring then HandOff(0, GenRecommendation, Acked) else Finish(0)
      case Running =>
        match r.job.kind
        case WebsiteCrawl => HandOff(0, RuleScoring, Acked)
        case AIAudit => HandOff(0, RuleScoring, Acked)
        case RuleScoring => StoreScore(0)
        case CollectBusiness => CommitBatch(0, map[])
        case _ => Finish(0)
  }

  /** A run that has failed for the last time, and is bound for the dead list. */
  predicate Doomed(r: Run) {
    r.stage == Failing && Exhausted(Bumped(r.job, None))
  }

  /** This dead entry was dead before, or is a job that had already failed for the last time, or was no job. */
  ghost predicate WasDead(s: State, e: Entry) {
    e.Raw? || e in s.redis.dead || exists r :: r in s.inflight && Doomed(r) && e == Stored(Bumped(r.job, None))
  }

  /** Nothing new fails, and nothing new dies. */
  ghost predicate NothingDies(s: State, t: State) {
    && (forall r :: r in t.inflight && r.stage == Failing ==> r in s.inflight)
    && (forall e :: e in t.redis.dead ==> WasDead(s, e))
  }

  lemma NothingDiesOn(s: State, u: State, t: State)
    requires NothingDies(s, u) && NothingDies(u, t)
    ensures NothingDies(s, t)
  {
    forall e | e in t.redis.dead ensures WasDead(s, e) {
      assert WasDead(u, e);
    }
  }

  lemma RequeueKillsDoomed(s: State)
    requires s.inflight != [] && s.inflight[0].stage == Failing
    ensures NothingDies(s, RequeueEffect(s, 0, None, Acked))
  {
    var r, t := s.inflight[0], RequeueEffect(s, 0, None, Acked);
    assert r in s.inflight;
    assert t.redis.dead == if Exhausted(Bumped(r.job, None)) then [Stored(Bumped(r.job, None))] + s.redis.dead else s.redis.dead;
  }

  lemma PopKillsNothing(s: State)
    requires s.redis.main != []
    ensures NothingDies(s, PopEffect(s, true))
  {
  }

  /** A run that moves on without failing, or ends. */
  lemma SuccessKillsNothing(s: State, t: State, stage: Stage)
    requires s.inflight != [] && stage != Failing && t.redis.dead == s.redis.dead
    requires t.inflight == s.inflight[0 := s.inflight[0].(stage := stage)] || t.inflight == Without(s.inflight, 0)
    ensures NothingDies(s, t)
  {
  }

  lemma GoodWorkKillsNothing(s: State, step: Step)
    requires Enabled(s, step)
    requires || step == Pop(true) || (step == Requeue(0, None, Acked) && s.inflight[0].stage == Failing)
             || step == CommitBatch(0, map[]) || step == StoreScore(0) || step == Finish(0)
             || (step.HandOff? && step.run == 0 && step.reply == Acked)
    ensures NothingDies(s, Apply(s, step))
  {
    hide NothingDies, RequeueEffect, PopEffect, EnqueueTo, Locked, IsNextBatch;
    match step
    case Pop(_) => PopKillsNothing(s);
    case Requeue(_, _, _) => RequeueKillsDoomed(s);
    case HandOff(_, _, _) => SuccessKillsNothing(s, Apply(s, step), HandedOff);
    case StoreScore(_) => SuccessKillsNothing(s, Apply(s, step), Written);
    case CommitBatch(_, _) => SuccessKillsNothing(s, Apply(s, step), Written);
    case Finish(_) => SuccessKillsNothing(s, Apply(s, step), Running);
  }

  lemma NextWorkKillsNothing(s: State)
    requires !(s.redis.main == [] && s.inflight == []) && Enabled(s, NextWork(s))
    ensures NothingDies(s, Apply(s, NextWork(s)))
  {
    hide Enabled, Apply, NothingDies;
    GoodWorkKillsNothing(s, NextWork(s));
  }

  lemma WorkCosts(s: State, step: Step)
    requires Enabled(s, step) && WorkerStep(step)
    ensures Price(s, step, None, 1) == 1
  {
  }

  lemma NextWorkIsEnabled(s: State)
    requires StagesFit(s) && !(s.redis.main == [] && s.inflight == [])
    ensures Enabled(s, NextWork(s)) && WorkerStep(NextWork(s))
  {
    if s.inflight != [] {
      assert StageFits(s.inflight[0]);
    }
  }

  /** Work that succeeds or is put back loses nothing and writes no outbox row. */
  lemma GoodWorkKeeps(s: State, step: Step)
    requires Enabled(s, step)
    requires || step == Pop(true) || step == Requeue(0, None, Acked) || step == CommitBatch(0, map[])
             || step.StoreScore? || step.Finish? || (step.HandOff? && step.reply == Acked)
    ensures NothingLost(s, Apply(s, step)) && Apply(s, step).outbox == s.outbox
  {
    hide PopEffect, RequeueEffect, HandOffEffect, WithStage, EnqueueTo, RequeueTo, Locked, IsNextBatch;
    if step.CommitBatch? {
      assert s.outbox + (map row | row in step.rows :: NewRow(Parsed(step.rows[row]))) == s.outbox;
    }
  }

  lemma NextWorkKeeps(s: State)
    requires StagesFit(s) && !(s.redis.main == [] && s.inflight == [])
    ensures Enabled(s, NextWork(s)) && WorkerStep(NextWork(s))
    ensures NothingLost(s, Apply(s, NextWork(s))) && Apply(s, NextWork(s)).outbox == s.outbox
  {
    NextWorkIsEnabled(s);
    hide Enabled, Apply, StagesFit, NothingLost;
    GoodWorkKeeps(s, NextWork(s));
  }

  lemma NextWorkWorks(s: State)
    requires RetryInv(s) && StagesFit(s) && !(s.redis.main == [] && s.inflight == [])
    ensures var step := NextWork(s);
            && Enabled(s, step) && WorkerStep(step)
            && NothingLost(s, Apply(s, step)) && Apply(s, step).outbox == s.outbox
            && RetryInv(Apply(s, step)) && StagesFit(Apply(s, step)) && NothingDies(s, Apply(s, step))
            && Potential(Apply(s, step), None, 1) < Potential(s, None, 1)
  {
    NextWorkKeeps(s);
    NextWorkKillsNothing(s);
    hide Enabled, Apply, RetryInv, StagesFit, Potential, Price, NothingDies;
    StepKeepsRetries(s, NextWork(s));
    StepKeepsStages(s, NextWork(s));
    WorkCosts(s, NextWork(s));
    StepPays(s, NextWork(s), None, 1);
  }

  lemma {:induction false} WorkOff(s: State) returns (steps: seq<Step>, t: State)
    requires RetryInv(s) && StagesFit(s) && Drained(s)
    ensures Works(s, steps, t) && Drained(t) && Idle(t) && NothingDies(s, t)
    decreases Potential(s, None, 1)
  {
    IdleMeansEmpty(s);
    if s.redis.main == [] && s.inflight == [] {
      steps, t := [], s;
    } else {
      var step := NextWork(s);
      NextWorkWorks(s);
      hide Enabled, Apply, RetryInv, StagesFit, Potential, NothingDies, Idle;
      steps, t := WorkOff(Apply(s, step));
      WorksOn(s, step, steps, t);
      NothingDiesOn(s, Apply(s, step), t);
      steps := [step] + steps;
    }
  }

  /** The business's fate is sealed already: it has a dead job, one that has failed for the last time, or a lost one. */
  ghost predicate Sealed(s: State, b: nat) {
    || InList(s.redis.dead, b) || KnownLost(s, b)
    || exists r :: r in s.inflight && Doomed(r) && LeadsToScore(r.job, b)
  }

  /**
   From every reachable state, relays and workers alone can get the outbox drained and the workers idle, with
   nothing more lost or killed; and every committed business whose fate was not sealed then has its score.
   */
  lemma CanSettle(s: State)
    requires Reachable(s)
    ensures exists steps, t :: && Works(s, steps, t) && Drained(t) && Idle(t) && NothingDies(s, t)
                               && forall b :: b in s.committed ==> b in t.scored || Sealed(s, b)
  {
    ReachableIsSafe(s);
    ReachableRetries(s);
    ReachableStages(s);
    var steps, t := Settle(s);
    ScoredByThen(s, steps, t);
    hide Reachable, Safe, RetryInv, StagesFit, Works, Drained, Idle, NothingDies, Sealed;
  }

  lemma EmptyOutbox(s: State) returns (steps: seq<Step>, t: State)
    requires Safe(s) && RetryInv(s)
    ensures Works(s, steps, t) && RetryInv(t) && Drained(t) && RunsUntouched(s, t)
  {
    hide Safe, RetryInv, Works, Drained;
    var closing, s1 := CloseClaims(s);
    var clearing, s2 := ClearReport(s1);
    var draining;
    draining, t := DrainOutbox(s2);
    WorksAppend(s, closing, s1, clearing, s2);
    WorksAppend(s, closing + clearing, s2, draining, t);
    steps := closing + clearing + draining;
  }

  lemma Settle(s: State) returns (steps: seq<Step>, t: State)
    requires Safe(s) && RetryInv(s) && StagesFit(s)
    ensures Works(s, steps, t) && Drained(t) && Idle(t) && NothingDies(s, t)
  {
    hide Safe, RetryInv, StagesFit, Works, Drained, Idle, NothingDies;
    var emptying, u := EmptyOutbox(s);
    SameRunsFit(s, u);
    var working;
    working, t := WorkOff(u);
    WorksAppend(s, emptying, u, working, t);
    SameRunsDie(s, u, t);
    steps := emptying + working;
  }

  lemma SameRunsFit(s: State, t: State)
    requires StagesFit(s) && RunsUntouched(s, t)
    ensures StagesFit(t)
  {
  }

  lemma SameRunsDie(s: State, u: State, t: State)
    requires RunsUntouched(s, u) && NothingDies(u, t)
    ensures NothingDies(s, t)
  {
    forall e | e in t.redis.dead ensures WasDead(s, e) {
      assert WasDead(u, e);
    }
  }

  lemma ScoredByThen(s: State, steps: seq<Step>, t: State)
    requires Reachable(s) && Works(s, steps, t) && Drained(t) && Idle(t) && NothingDies(s, t)
    ensures forall b :: b in s.committed ==> b in t.scored || Sealed(s, b)
  {
    var before :| Runs(INIT, before, s);
    RunsAppend(INIT, before, s, steps, t);
    assert Reachable(t);
    hide Runs, Drained, Idle;
    forall b | b in s.committed ensures b in t.scored || Sealed(s, b) {
      EveryBusinessIsSettled(t, b);
      if InList(t.redis.dead, b) {
        var e :| e in t.redis.dead && e.Stored? && LeadsToScore(e.job, b);
        assert WasDead(s, e);
      }
    }
  }

  lemma ClearReport(s: State) returns (steps: seq<Step>, t: State)
    requires Safe(s) && RetryInv(s) && s.claims == map[]
    ensures Works(s, steps, t) && Safe(t) && RetryInv(t) && t.claims == map[] && 0 !in t.reports && RunsUntouched(s, t)
  {
    steps, t := [], s;
    if 0 in s.reports {
      steps, t := [GiveUpReport(0)], Apply(s, GiveUpReport(0));
      StepKeeps(s, GiveUpReport(0));
      StepKeepsRetries(s, GiveUpReport(0));
      assert Works(t, [], t);
      WorksOn(s, GiveUpReport(0), [], t);
    }
  }
}
