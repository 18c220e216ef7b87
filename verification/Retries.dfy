/** One job, one place, at most its budget of runs. */
module Retries {
  import opened Jobs
  import opened Pipeline
  import opened Sequences

  /******* Where an id is *******/

  function EntryIs(id: nat): Entry -> nat {
    (e: Entry) => if e.Stored? && e.job.id == id then 1 else 0
  }

  function RunIs(id: nat): Run -> nat {
    (r: Run) => if r.job.id == id then 1 else 0
  }

  function JobIs(id: nat): Job -> nat {
    (job: Job) => if job.id == id then 1 else 0
  }

  /** How many copies of this job the main list, the runs, the dead list and the losses hold together. */
  function Copies(s: State, id: nat): nat {
    Sum(s.redis.main, EntryIs(id)) + Sum(s.inflight, RunIs(id))
    + Sum(s.redis.dead, EntryIs(id)) + Sum(s.lost, JobIs(id))
  }

  ghost predicate OnePlace(s: State) {
    && (forall id :: Copies(s, id) <= 1)
    && (forall id :: id == NO_ID || id > s.redis.issued ==> Copies(s, id) == 0)
  }

  /******* What is known of a job in each place *******/

  /** The job as first enqueued, with a retry count and an error message added since. */
  predicate SameJob(job: Job, first: Job) {
    job == first.(retries := job.retries, lastError := job.lastError)
  }

  predicate Known(s: State, job: Job) {
    && job.id in s.minted && SameJob(job, s.minted[job.id])
    && job.maxRetries != 0 && job.retries >= 0
  }

  predicate QueuedOk(s: State, job: Job) {
    Known(s, job) && s.starts[job.id] == job.retries && job.retries < Budget(job.maxRetries)
  }

  predicate RunningOk(s: State, job: Job) {
    Known(s, job) && s.starts[job.id] == job.retries + 1 && job.retries < Budget(job.maxRetries)
  }

  predicate DeadOk(s: State, job: Job) {
    Known(s, job) && s.starts[job.id] == job.retries == Budget(job.maxRetries)
  }

  ghost predicate PlacesOk(s: State) {
    && (forall e :: e in s.redis.main && e.Stored? ==> QueuedOk(s, e.job))
    && (forall r :: r in s.inflight ==> RunningOk(s, r.job))
    && (forall e :: e in s.redis.dead && e.Stored? ==> DeadOk(s, e.job))
  }

  ghost predicate MintedOk(s: State) {
    && (forall id :: id in s.minted ==>
          && 0 < id <= s.redis.issued && s.minted[id].id == id && s.minted[id].retries == 0
          && s.minted[id].maxRetries != 0 && s.starts[id] <= Budget(s.minted[id].maxRetries))
    && (forall id :: id in s.starts ==> id in s.minted)
  }

  ghost predicate RowsFresh(s: State) {
    forall row :: IsParsed(s, row) ==> Fresh(s.outbox[row].payload.job)
  }

  ghost predicate RetryInv(s: State) {
    OnePlace(s) && PlacesOk(s) && MintedOk(s) && RowsFresh(s)
  }

  /******* Steps *******/

  predicate SameJobs(s: State, t: State) {
    && t.redis == s.redis && t.inflight == s.inflight && t.lost == s.lost
    && t.minted == s.minted && t.starts == s.starts
  }

  lemma SameJobsKeep(s: State, t: State)
    requires RetryInv(s) && SameJobs(s, t) && RowsFresh(t)
    ensures RetryInv(t)
  {
    forall id ensures Copies(t, id) == Copies(s, id) {}
  }

  lemma SendKeeps(s: State, job: Job, reply: Reply)
    requires RetryInv(s) && Fresh(job)
    ensures RetryInv(Send(s, job, reply))
  {
    var t := Send(s, job, reply);
    var stamped := Stored(Prepared(job, s.redis.issued + 1));
    forall id: nat
      ensures Copies(t, id) <= 1
      ensures id == NO_ID || id > t.redis.issued ==> Copies(t, id) == 0
    {
      assert Copies(s, id) <= 1;
      SumPush(stamped, s.redis.main, EntryIs(id));
    }
    SendKeepsPlaces(s, job, reply);
  }

  lemma SendKeepsPlaces(s: State, job: Job, reply: Reply)
    requires PlacesOk(s) && MintedOk(s) && RowsFresh(s) && Fresh(job)
    ensures PlacesOk(Send(s, job, reply)) && MintedOk(Send(s, job, reply)) && RowsFresh(Send(s, job, reply))
  {
    assert s.redis.issued + 1 !in s.minted;
    assert s.redis.issued + 1 !in s.starts;
    hide Sum, Copies, OnePlace;
  }

  lemma StageKeeps(s: State, run: nat, stage: Stage)
    requires RetryInv(s) && IsRunning(s, run)
    ensures RetryInv(WithStage(s, run, stage))
  {
    var t := WithStage(s, run, stage);
    forall id ensures Copies(t, id) == Copies(s, id) {
      SumUpdate(s.inflight, run, s.inflight[run].(stage := stage), RunIs(id));
    }
    assert forall r :: r in t.inflight ==> RunningOk(s, r.job);
  }

  /** A run's job that is gone from the runs and nowhere else: finished. */
  lemma FinishKeeps(s: State, run: nat)
    requires RetryInv(s) && IsRunning(s, run)
    ensures RetryInv(s.(inflight := Without(s.inflight, run)))
  {
    var t := s.(inflight := Without(s.inflight, run));
    forall id ensures Copies(t, id) <= Copies(s, id) {
      SumWithout(s.inflight, run, RunIs(id));
    }
    assert forall r :: r in t.inflight ==> r in s.inflight;
  }

  lemma LoseRunKeeps(s: State, run: nat)
    requires RetryInv(s) && IsRunning(s, run)
    ensures RetryInv(s.(inflight := Without(s.inflight, run), lost := s.lost + [s.inflight[run].job]))
  {
    var job := s.inflight[run].job;
    var t := s.(inflight := Without(s.inflight, run), lost := s.lost + [job]);
    forall id ensures Copies(t, id) == Copies(s, id) {
      SumWithout(s.inflight, run, RunIs(id));
      SumAppend(s.lost, [job], JobIs(id));
      SumOne(job, JobIs(id));
    }
    assert forall r :: r in t.inflight ==> r in s.inflight;
  }

  lemma PopMoves(s: State, delivered: bool, id: nat)
    requires s.redis.main != []
    ensures Copies(PopEffect(s, delivered), id) == Copies(s, id)
  {
    var last := s.redis.main[|s.redis.main| - 1];
    SumDropLast(s.redis.main, EntryIs(id));
    match last
    case Raw(_) =>
      SumPush(last, s.redis.dead, EntryIs(id));
    case Stored(job) =>
      SumAppend(s.inflight, [Run(job, Running)], RunIs(id));
      SumOne(Run(job, Running), RunIs(id));
      SumAppend(s.lost, [job], JobIs(id));
      SumOne(job, JobIs(id));
  }

  lemma PopKeeps(s: State, delivered: bool)
    requires RetryInv(s) && s.redis.main != []
    ensures RetryInv(PopEffect(s, delivered))
  {
    PopKeepsPlaces(s, delivered);
    hide PlacesOk, MintedOk, RowsFresh, Copies;
    forall id ensures Copies(PopEffect(s, delivered), id) == Copies(s, id) {
      PopMoves(s, delivered, id);
    }
  }

  /** Starting a job that is in one place changes what is known of no other job. */
  lemma PopKeepsPlaces(s: State, delivered: bool)
    requires RetryInv(s) && s.redis.main != []
    ensures PlacesOk(PopEffect(s, delivered)) && MintedOk(PopEffect(s, delivered)) && RowsFresh(PopEffect(s, delivered))
  {
    var n := |s.redis.main| - 1;
    if s.redis.main[n].Stored? && delivered {
      StartedJobKeeps(s);
    } else {
      ShrinkKeepsPlaces(s, PopEffect(s, delivered));
      hide RetryInv, PlacesOk, MintedOk, RowsFresh;
    }
  }

  /** Jobs that leave the lists, and entries that are no jobs, upset nothing. */
  lemma ShrinkKeepsPlaces(s: State, t: State)
    requires PlacesOk(s) && MintedOk(s) && RowsFresh(s)
    requires t.outbox == s.outbox && t.inflight == s.inflight && t.minted == s.minted && t.starts == s.starts
    requires t.redis.issued == s.redis.issued
    requires forall e :: e in t.redis.main ==> e in s.redis.main
    requires forall e :: e in t.redis.dead ==> e in s.redis.dead || e.Raw?
    ensures PlacesOk(t) && MintedOk(t) && RowsFresh(t)
  {
  }

  lemma StartedJobKeeps(s: State)
    requires RetryInv(s) && s.redis.main != [] && s.redis.main[|s.redis.main| - 1].Stored?
    ensures PlacesOk(PopEffect(s, true)) && MintedOk(PopEffect(s, true)) && RowsFresh(PopEffect(s, true))
  {
    var job := s.redis.main[|s.redis.main| - 1].job;
    assert QueuedOk(s, job);
    Elsewhere(s, job.id);
    hide OnePlace, Copies;
    StartKeepsMinted(s, PopEffect(s, true), job);
    StartKeepsPlaces(s, PopEffect(s, true), job);
    hide PlacesOk, MintedOk;
  }

  lemma StartKeepsMinted(s: State, t: State, job: Job)
    requires MintedOk(s) && QueuedOk(s, job)
    requires t.minted == s.minted && t.starts == s.starts + multiset{job.id} && t.redis.issued == s.redis.issued
    ensures MintedOk(t)
  {
  }

  lemma StartKeepsPlaces(s: State, t: State, job: Job)
    requires PlacesOk(s) && QueuedOk(s, job)
    requires t.minted == s.minted && t.starts == s.starts + multiset{job.id} && t.redis.dead == s.redis.dead
    requires t.inflight == s.inflight + [Run(job, Running)]
    requires forall e :: e in t.redis.main ==> e in s.redis.main && (e.Stored? ==> e.job.id != job.id)
    requires forall r :: r in s.inflight ==> r.job.id != job.id
    requires forall e :: e in s.redis.dead && e.Stored? ==> e.job.id != job.id
    ensures PlacesOk(t)
  {
    forall r | r in t.inflight ensures RunningOk(t, r.job) {
      if r in s.inflight { assert RunningOk(s, r.job); }
    }
    forall e | e in t.redis.main && e.Stored? ensures QueuedOk(t, e.job) {
      assert QueuedOk(s, e.job);
    }
    forall e | e in t.redis.dead && e.Stored? ensures DeadOk(t, e.job) {
      assert DeadOk(s, e.job);
    }
  }

  /** The last entry's id occurs nowhere but at the end of the main list. */
  lemma Elsewhere(s: State, id: nat)
    requires OnePlace(s) && s.redis.main != []
    requires var last := s.redis.main[|s.redis.main| - 1]; last.Stored? && last.job.id == id
    ensures forall e :: e in s.redis.main[..|s.redis.main| - 1] && e.Stored? ==> e.job.id != id
    ensures forall r :: r in s.inflight ==> r.job.id != id
    ensures forall e :: e in s.redis.dead && e.Stored? ==> e.job.id != id
  {
    SumDropLast(s.redis.main, EntryIs(id));
    assert Copies(s, id) <= 1;
    forall e | e in s.redis.main[..|s.redis.main| - 1] && e.Stored? ensures e.job.id != id {
      SumMember(s.redis.main[..|s.redis.main| - 1], e, EntryIs(id));
    }
    forall r | r in s.inflight ensures r.job.id != id {
      SumMember(s.inflight, r, RunIs(id));
    }
    forall e | e in s.redis.dead && e.Stored? ensures e.job.id != id {
      SumMember(s.redis.dead, e, EntryIs(id));
    }
  }

  /** A job that has been enqueued before keeps its id and its MaxRetries, so its new place gets it as bumped. */
  lemma RequeueWhere(l: Lists, job: Job, cause: Option<string>, reply: Reply)
    requires job.id != NO_ID && job.maxRetries != 0
    ensures var failed := Bumped(job, cause);
            RequeueTo(l, job, cause, reply) ==
              if reply == Refused then l
              else if Exhausted(failed) then l.(dead := [Stored(failed)] + l.dead)
              else l.(main := [Stored(failed)] + l.main)
  {
  }

  lemma RunIsEnqueued(s: State, run: nat)
    requires RetryInv(s) && IsRunning(s, run)
    ensures s.inflight[run].job.id != NO_ID && s.inflight[run].job.maxRetries != 0
    ensures RunningOk(s, s.inflight[run].job)
  {
    assert s.inflight[run] in s.inflight;
  }

  lemma RequeueMoves(s: State, run: nat, cause: Option<string>, reply: Reply, id: nat)
    requires RetryInv(s) && Enabled(s, Requeue(run, cause, reply))
    ensures Copies(RequeueEffect(s, run, cause, reply), id) == Copies(s, id)
  {
    var job := s.inflight[run].job;
    var failed := Bumped(job, cause);
    RunIsEnqueued(s, run);
    RequeueWhere(s.redis, job, cause, reply);
    hide RetryInv, Known, Enabled, RequeueTo, EnqueueTo, Exhausted;
    SumWithout(s.inflight, run, RunIs(id));
    if reply.Refused? {
      SumAppend(s.lost, [job], JobIs(id));
      SumOne(job, JobIs(id));
    } else if Exhausted(failed) {
      SumPush(Stored(failed), s.redis.dead, EntryIs(id));
    } else {
      SumPush(Stored(failed), s.redis.main, EntryIs(id));
    }
  }

  lemma PutBackKeepsPlaces(s: State, t: State, run: nat, failed: Job)
    requires PlacesOk(s) && IsRunning(s, run) && RunningOk(s, s.inflight[run].job)
    requires failed == s.inflight[run].job.(retries := s.inflight[run].job.retries + 1, lastError := failed.lastError)
    requires t.minted == s.minted && t.starts == s.starts && t.inflight == Without(s.inflight, run)
    requires forall e :: e in t.redis.main ==> e in s.redis.main || (e == Stored(failed) && !Exhausted(failed))
    requires forall e :: e in t.redis.dead ==> e in s.redis.dead || (e == Stored(failed) && Exhausted(failed))
    ensures PlacesOk(t)
  {
    assert forall r :: r in Without(s.inflight, run) ==> r in s.inflight;
  }

  lemma RequeueKeepsPlaces(s: State, run: nat, cause: Option<string>, reply: Reply)
    requires RetryInv(s) && Enabled(s, Requeue(run, cause, reply))
    ensures PlacesOk(RequeueEffect(s, run, cause, reply))
  {
    RunIsEnqueued(s, run);
    RequeueWhere(s.redis, s.inflight[run].job, cause, reply);
    PlacesHold(s);
    hide RetryInv, PlacesOk, RunningOk, RequeueTo, EnqueueTo, Exhausted;
    PutBackKeepsPlaces(s, RequeueEffect(s, run, cause, reply), run, Bumped(s.inflight[run].job, cause));
  }

  lemma PlacesHold(s: State)
    requires RetryInv(s)
    ensures PlacesOk(s)
  {
  }

  lemma RequeueKeeps(s: State, run: nat, cause: Option<string>, reply: Reply)
    requires RetryInv(s) && Enabled(s, Requeue(run, cause, reply))
    ensures RetryInv(RequeueEffect(s, run, cause, reply))
  {
    var t := RequeueEffect(s, run, cause, reply);
    assert RunningOk(s, s.inflight[run].job);
    assert t.redis.issued == s.redis.issued;
    forall id: nat ensures Copies(t, id) == Copies(s, id) {
      RequeueMoves(s, run, cause, reply, id);
    }
    RequeueKeepsPlaces(s, run, cause, reply);
  }

  lemma ForeignPushKeeps(s: State, bytes: string)
    requires RetryInv(s)
    ensures RetryInv(Apply(s, ForeignPush(bytes)))
  {
    forall id ensures Copies(Apply(s, ForeignPush(bytes)), id) == Copies(s, id) {
      SumPush(Raw(bytes), s.redis.main, EntryIs(id));
    }
  }

  /** A run's database write: its stage moves on, and no job does. */
  lemma WriteKeeps(s: State, step: Step)
    requires RetryInv(s) && Enabled(s, step) && (step.CommitBatch? || step.StoreScore?)
    ensures RetryInv(Apply(s, step))
  {
    StageKeeps(s, step.run, Written);
    SameJobsKeep(WithStage(s, step.run, Written), Apply(s, step));
  }

  lemma StepKeepsRetries(s: State, step: Step)
    requires RetryInv(s) && Enabled(s, step)
    ensures RetryInv(Apply(s, step))
  {
    hide RetryInv;
    match step
    case CommitBatch(_, _) => WriteKeeps(s, step);
    case ApiEnqueue(job, reply) => SendKeeps(s, job, reply);
    case ForeignPush(bytes) => ForeignPushKeeps(s, bytes);
    case Publish(relay, reply) => PublishKeepsRetries(s, relay, reply);
    case Pop(delivered) => PopKeeps(s, delivered);
    case StoreScore(_) => WriteKeeps(s, step);
    case HandOff(run, child, reply) =>
      SendKeeps(s, ChildOf(s.inflight[run].job, child), reply);
      StageKeeps(Send(s, ChildOf(s.inflight[run].job, child), reply), run, if reply.Acked? then HandedOff else Failing);
    case Finish(run) => FinishKeeps(s, run);
    case Fail(run) => StageKeeps(s, run, Failing);
    case Requeue(run, cause, reply) => RequeueKeeps(s, run, cause, reply);
    case Die(run) =>
      FinishKeeps(s, run);
      LoseRunKeeps(s, run);
    case _ => OutboxStepKeeps(s, step);
  }

  lemma OutboxStepKeeps(s: State, step: Step)
    requires RetryInv(s) && Enabled(s, step)
    requires step.WriteRow? || step.BeginClaim? || step.CommitClaim? || step.AbortClaim? ||
             step.RecordFailure? || step.GiveUpReport? || step.Purge?
    ensures RetryInv(Apply(s, step))
  {
    SameJobsKeep(s, Apply(s, step));
  }

  lemma PublishKeepsRetries(s: State, relay: nat, reply: Reply)
    requires RetryInv(s) && Enabled(s, Publish(relay, reply))
    ensures RetryInv(PublishEffect(s, relay, reply))
  {
    var t := PublishEffect(s, relay, reply);
    var row := s.claims[relay].rows[s.claims[relay].next];
    hide OnePlace, PlacesOk, MintedOk, EnqueueTo;
    match s.outbox[row].payload
    case Unparseable =>
      SameJobsKeep(s, t);
    case Parsed(job) =>
      assert IsParsed(s, row);
      SendKeeps(s, job, reply);
      hide Send;
      SameJobsKeep(Send(s, job, reply), t);
  }

  lemma {:induction false} RunKeepsRetries(s: State, steps: seq<Step>, t: State)
    requires RetryInv(s) && Runs(s, steps, t)
    ensures RetryInv(t)
    decreases steps
  {
    if steps != [] {
      StepKeepsRetries(s, steps[0]);
      RunKeepsRetries(Apply(s, steps[0]), steps[1..], t);
    }
  }

  /******* Retry accounting *******/

  lemma InitRetries()
    ensures RetryInv(INIT)
  {
    forall id: nat ensures Copies(INIT, id) == 0 {}
  }

  lemma ReachableRetries(s: State)
    requires Reachable(s)
    ensures RetryInv(s)
  {
    InitRetries();
    var steps :| Runs(INIT, steps, s);
    RunKeepsRetries(INIT, steps, s);
  }

  ghost predicate Listed(list: seq<Entry>, id: nat) {
    exists e :: e in list && e.Stored? && e.job.id == id
  }

  /**
   Over every run, a job is started at most as often as its MaxRetries allows, is never in two places,
   is the job first enqueued wherever it is met, and is dead only after its last permitted start.
   */
  lemma RetryAccounting(s: State, id: nat)
    requires Reachable(s) && id in s.minted
    ensures s.starts[id] <= Budget(s.minted[id].maxRetries)
    ensures Copies(s, id) <= 1
    ensures forall e :: (e in s.redis.main || e in s.redis.dead) && e.Stored? && e.job.id == id ==>
                          SameJob(e.job, s.minted[id])
    ensures forall r :: r in s.inflight && r.job.id == id ==> SameJob(r.job, s.minted[id])
    ensures Listed(s.redis.dead, id) ==> s.starts[id] == Budget(s.minted[id].maxRetries)
    ensures Listed(s.redis.main, id) ==> s.starts[id] < Budget(s.minted[id].maxRetries)
  {
    ReachableRetries(s);
    assert PlacesOk(s);
  }

  /** A job enters the dead list exactly when its last permitted run is requeued and the push lands. */
  lemma EntersDeadList(s: State, step: Step, id: nat)
    requires Reachable(s) && Enabled(s, step)
    ensures !Listed(s.redis.dead, id) && Listed(Apply(s, step).redis.dead, id) <==>
              && step.Requeue? && s.inflight[step.run].job.id == id && step.reply != Refused
              && s.starts[id] == Budget(s.inflight[step.run].job.maxRetries)
  {
    ReachableRetries(s);
    var t := Apply(s, step);
    if step.Requeue? {
      var r := s.inflight[step.run];
      var failed := Bumped(r.job, step.cause);
      assert RunningOk(s, r.job);
      if t.redis.dead != s.redis.dead {
        assert t.redis.dead == [Stored(failed)] + s.redis.dead;
        assert t.redis.dead[0] in t.redis.dead;
        if r.job.id == id {
          NotDeadWhileRunning(s, r, id);
        }
      }
    } else {
      OnlyRequeueBuries(s, step, id);
    }
  }

  lemma NotDeadWhileRunning(s: State, r: Run, id: nat)
    requires OnePlace(s) && r in s.inflight && r.job.id == id
    ensures !Listed(s.redis.dead, id)
  {
    SumMember(s.inflight, r, RunIs(id));
    assert Copies(s, id) <= 1;
    forall e | e in s.redis.dead && e.Stored? ensures e.job.id != id {
      SumMember(s.redis.dead, e, EntryIs(id));
    }
  }

  lemma OnlyRequeueBuries(s: State, step: Step, id: nat)
    requires Enabled(s, step) && !step.Requeue?
    ensures Listed(Apply(s, step).redis.dead, id) ==> Listed(s.redis.dead, id)
  {
    var t := Apply(s, step);
    if Listed(t.redis.dead, id) {
      var e :| e in t.redis.dead && e.Stored? && e.job.id == id;
      assert e in s.redis.dead;
    }
  }

  /******* The default *******/

  /** Whoever enqueues a job without MaxRetries, its id is minted with three. */
  lemma MintedWithDefault(s: State, job: Job, reply: Reply)
    requires job.maxRetries == 0 && reply != Refused
    ensures var t := Send(s, job, reply);
            && s.redis.issued + 1 in t.minted && t.minted[s.redis.issued + 1].maxRetries == 3
            && forall id :: id in s.minted && id != s.redis.issued + 1 ==> id in t.minted && t.minted[id] == s.minted[id]
  {
  }

  /** What producers of the pipeline enqueue, follow-ups and children alike, comes without MaxRetries. */
  lemma PipelineJobsDefault(s: State, step: Step, id: nat)
    requires Enabled(s, step) && id !in s.minted && id in Apply(s, step).minted
    ensures step.HandOff? ==> Apply(s, step).minted[id].maxRetries == 3
    ensures step.Publish? ==>
              var row := s.claims[step.relay].rows[s.claims[step.relay].next];
              IsParsed(s, row) && (FollowUp(s.outbox[row].payload.job) ==> Apply(s, step).minted[id].maxRetries == 3)
    ensures step.HandOff? || step.Publish? || step.ApiEnqueue?
  {
    hide CommitClaimEffect, AbortClaimEffect, RecordFailureEffect, PurgeEffect, IsNextBatch, Locked, RequeueTo;
  }

  /** A minted id is never minted again, so what it was minted with stays. */
  lemma MintedStays(s: State, step: Step, id: nat)
    requires RetryInv(s) && Enabled(s, step) && id in s.minted
    ensures id in Apply(s, step).minted && Apply(s, step).minted[id] == s.minted[id]
  {
    hide RetryInv, CommitClaimEffect, AbortClaimEffect, RecordFailureEffect, PurgeEffect;
    hide IsNextBatch, Locked, RequeueTo, EnqueueTo;
    MintedIsIssued(s, id);
  }

  lemma MintedIsIssued(s: State, id: nat)
    requires RetryInv(s) && id in s.minted
    ensures id <= s.redis.issued
  {
  }

  /** A job minted with three runs at most three times, and is dead exactly after the third. */
  lemma DefaultJobsRunThrice(s: State, id: nat)
    requires Reachable(s) && id in s.minted && s.minted[id].maxRetries == 3
    ensures s.starts[id] <= 3
    ensures Listed(s.redis.dead, id) ==> s.starts[id] == 3
    ensures Listed(s.redis.main, id) ==> s.starts[id] < 3
  {
    RetryAccounting(s, id);
    hide Reachable, Listed;
  }

  lemma PopOnly(s: State, job: Job) returns (t: State)
    requires Reachable(s) && s.redis.main == [Stored(job)] && s.inflight == []
    ensures Reachable(t) && t == s.(redis := s.redis.(main := []), inflight := [Run(job, Running)], starts := s.starts + multiset{job.id})
  {
    hide Reachable;
    ReachableOn(s, Pop(true));
    t := Apply(s, Pop(true));
  }

  lemma FailOnly(s: State, job: Job) returns (t: State)
    requires Reachable(s) && s.inflight == [Run(job, Running)]
    ensures Reachable(t) && t == s.(inflight := [Run(job, Failing)])
  {
    hide Reachable;
    ReachableOn(s, Fail(0));
    t := Apply(s, Fail(0));
  }

  lemma RequeueOnly(s: State, job: Job) returns (t: State)
    requires Reachable(s) && s.inflight == [Run(job, Failing)] && job.id != NO_ID && job.maxRetries != 0
    ensures Reachable(t) && t == s.(redis := RequeueTo(s.redis, job, None, Acked), inflight := [])
  {
    hide Reachable, RequeueTo;
    ReachableOn(s, Requeue(0, None, Acked));
    t := Apply(s, Requeue(0, None, Acked));
  }

  /** One failed run of the only job there is. */
  lemma FailOnce(s: State, job: Job) returns (t: State)
    requires Reachable(s) && s.redis.main == [Stored(job)] && s.inflight == [] && job.id != NO_ID && job.maxRetries != 0
    ensures Reachable(t) && t.inflight == [] && t.starts == s.starts + multiset{job.id} && t.minted == s.minted
    ensures var failed := job.(retries := job.retries + 1);
            if failed.retries >= job.maxRetries
            then t.redis.main == [] && t.redis.dead == [Stored(failed)] + s.redis.dead
            else t.redis.main == [Stored(failed)] && t.redis.dead == s.redis.dead
  {
    hide Reachable, RequeueTo, EnqueueTo;
    var s1 := PopOnly(s, job);
    var s2 := FailOnly(s1, job);
    RequeueWhere(s2.redis, job, None, Acked);
    t := RequeueOnly(s2, job);
  }

  /** The third run is reached: a job enqueued without MaxRetries fails three times, and only then is dead. */
  lemma ThirdRunIsReached(job: Job)
    requires Fresh(job) && job.maxRetries == 0
    ensures exists s, t :: && Reachable(s) && s.starts[1] == 2 && Listed(s.redis.main, 1)
                           && Reachable(t) && t.starts[1] == 3 && Listed(t.redis.dead, 1) && s.redis.dead == []
  {
    assert Runs(INIT, [], INIT);
    var s0 := Apply(INIT, ApiEnqueue(job, Acked));
    ReachableOn(INIT, ApiEnqueue(job, Acked));
    var stamped := job.(id := 1, maxRetries := 3);
    assert s0.redis.main == [Stored(stamped)];
    var s1 := FailOnce(s0, stamped);
    var s2 := FailOnce(s1, stamped.(retries := 1));
    var s3 := FailOnce(s2, stamped.(retries := 2));
    hide Reachable;
    assert s2.redis.main[0] in s2.redis.main && s3.redis.dead[0] in s3.redis.dead;
    assert s2.starts[1] == 2 && s3.starts[1] == 3;
  }
}
