/**
 The job hand-off as a step system: outbox rows, relay claims, the Redis lists, running handlers.
 Every interleaving of relays, workers, producers, crashes and failed calls is a sequence of steps.
 */
module Pipeline {
  import opened Jobs
  import opened Sequences

  /******* State *******/

  datatype Payload = Parsed(job: Job) | Unparseable

  /** A purged row stays in the model as a tombstone, so that history can be talked about. */
  datatype Status = Unpublished | Published | Purged

  datatype Row = Row(payload: Payload, status: Status, attempts: nat)

  /** Scanning: working through `rows`. Reporting: the first push failed. Marking: a later push failed. */
  datatype Phase = Scanning | Reporting | Marking

  /** An open claim transaction: it locks `rows`, and has dealt with `rows[..next]`. */
  datatype Claim = Claim(rows: seq<nat>, next: nat, phase: Phase)

  /** Running: nothing durable yet. Written: its database write landed. HandedOff: its child is queued. */
  datatype Stage = Running | Written | HandedOff | Failing

  datatype Run = Run(job: Job, stage: Stage)

  /**
   `reports` holds, for each relay whose first push failed, the row it has yet to report; the report is an
   update outside its claim's transaction, so it may outlive the claim.
   The fields from `pushes` on are history: how often each outbox row was pushed, by claims that
   later aborted, or by pushes reported as failed; each id's job as first enqueued; how often each id
   was started; and the jobs that died with a worker or could not be requeued.
   */
  datatype State = State(
    outbox: map<nat, Row>,
    claims: map<nat, Claim>,
    reports: map<nat, nat>,
    redis: Lists,
    inflight: seq<Run>,
    committed: set<nat>,
    scored: set<nat>,
    pushes: multiset<nat>,
    aborted: multiset<nat>,
    unacked: multiset<nat>,
    minted: map<nat, Job>,
    starts: multiset<nat>,
    lost: seq<Job>)

  const INIT := State(map[], map[], map[], Lists([], [], 0), [], {}, {},
                      multiset{}, multiset{}, multiset{}, map[], multiset{}, [])

  /******* Steps *******/

  datatype Step =
    // producers
    | CommitBatch(run: nat, rows: map<nat, Job>)
    | WriteRow(row: nat, payload: Payload)
    | ApiEnqueue(job: Job, reply: Reply)
    | ForeignPush(bytes: string)
    // relays
    | BeginClaim(relay: nat, limit: int, batch: seq<nat>)
    | Publish(relay: nat, reply: Reply)
    | CommitClaim(relay: nat)
    | AbortClaim(relay: nat)
    | RecordFailure(relay: nat)
    | GiveUpReport(relay: nat)
    | Purge(ids: set<nat>)
    // workers
    | Pop(delivered: bool)
    | StoreScore(run: nat)
    | HandOff(run: nat, child: Kind, reply: Reply)
    | Finish(run: nat)
    | Fail(run: nat)
    | Requeue(run: nat, cause: Option<string>, reply: Reply)
    | Die(run: nat)

  predicate Locked(s: State, row: nat) {
    exists relay :: relay in s.claims && row in s.claims[relay].rows
  }

  predicate Claimable(s: State, row: nat) {
    row in s.outbox && s.outbox[row].status == Unpublished && !Locked(s, row)
  }

  /** The batch size the outbox repository uses when it is asked for a non-positive one. */
  function EffectiveLimit(limit: int): (n: nat)
    ensures n >= 1
  {
    if limit <= 0 then 100 else limit
  }

  /** ORDER BY id LIMIT n FOR UPDATE SKIP LOCKED over the unpublished rows. */
  predicate IsNextBatch(s: State, batch: seq<nat>, limit: int) {
    && |batch| <= EffectiveLimit(limit)
    && (forall i, j :: 0 <= i < j < |batch| ==> batch[i] < batch[j])
    && (forall row :: row in batch ==> Claimable(s, row))
    && (forall row :: row in s.outbox && Claimable(s, row) && row !in batch ==>
          |batch| == EffectiveLimit(limit) && forall other :: other in batch ==> other < row)
  }

  /** The follow-up jobs collectBusiness writes: crawl the site, or score at once. */
  predicate FollowUp(job: Job) {
    Fresh(job) && job.maxRetries == 0 && (job.kind == WebsiteCrawl || job.kind == RuleScoring)
  }

  /** Which child a handler may push, and from which stage. */
  predicate MayHandOff(run: Run, child: Kind) {
    match run.job.kind
    case WebsiteCrawl => run.stage == Running && (child == RuleScoring || child == AIAudit)
    case AIAudit => run.stage == Running && child == RuleScoring
    case RuleScoring => run.stage == Written && child == GenRecommendation
    case GenRecommendation => run.stage == Running && child == EmbedLead
    case _ => false
  }

  /** When a handler may return nil. */
  predicate MayFinish(run: Run) {
    match run.job.kind
    case WebsiteCrawl => run.stage == HandedOff
    case AIAudit => run.stage == HandedOff
    case RuleScoring => run.stage == HandedOff
    case GenRecommendation => run.stage == Running || run.stage == HandedOff
    case CollectBusiness => run.stage == Written
    case _ => run.stage == Running
  }

  predicate IsRunning(s: State, run: nat) {
    run < |s.inflight|
  }

  predicate Enabled(s: State, step: Step) {
    match step
    case CommitBatch(run, rows) =>
      && IsRunning(s, run)
      && s.inflight[run] == Run(s.inflight[run].job, Running)
      && s.inflight[run].job.kind == CollectBusiness
      && rows.Keys !! s.outbox.Keys
      && (forall row :: row in rows ==> FollowUp(rows[row]))
    case WriteRow(row, payload) =>
      row !in s.outbox && (payload.Parsed? ==> Fresh(payload.job))
    case ApiEnqueue(job, _) => Fresh(job)
    case ForeignPush(_) => true
    case BeginClaim(relay, limit, batch) =>
      relay !in s.claims && relay !in s.reports && IsNextBatch(s, batch, limit)
    case Publish(relay, _) =>
      && relay in s.claims
      && var c := s.claims[relay];
         c.phase == Scanning && c.next < |c.rows| && c.rows[c.next] in s.outbox
    case CommitClaim(relay) =>
      && relay in s.claims
      && var c := s.claims[relay];
         && c.rows != []
         && c.next <= |c.rows|
         && (c.phase == Marking || (c.phase == Scanning && c.next == |c.rows|))
    case AbortClaim(relay) =>
      relay in s.claims && s.claims[relay].next <= |s.claims[relay].rows|
    case RecordFailure(relay) =>
      relay in s.reports && s.reports[relay] in s.outbox && !Locked(s, s.reports[relay])
    case GiveUpReport(relay) => relay in s.reports
    case Purge(ids) =>
      forall row :: row in ids ==> row in s.outbox && s.outbox[row].status == Published
    case Pop(_) => s.redis.main != []
    case StoreScore(run) =>
      && IsRunning(s, run)
      && s.inflight[run].job.kind == RuleScoring
      && s.inflight[run].stage == Running
    case HandOff(run, child, _) => IsRunning(s, run) && MayHandOff(s.inflight[run], child)
    case Finish(run) => IsRunning(s, run) && MayFinish(s.inflight[run])
    case Fail(run) => IsRunning(s, run) && s.inflight[run].stage != Failing
    case Requeue(run, _, _) => IsRunning(s, run) && s.inflight[run].stage == Failing
    case Die(run) => IsRunning(s, run)
  }

  /******* Effects *******/

  /** The parts relays and producers of rows work on are as they were. */
  predicate SameRelaySide(s: State, t: State) {
    && t.outbox == s.outbox && t.claims == s.claims && t.reports == s.reports
    && t.pushes == s.pushes && t.aborted == s.aborted && t.unacked == s.unacked
  }

  /** The parts workers work on are as they were, the Redis lists and what they issued aside. */
  predicate SameWorkerSide(s: State, t: State) {
    && t.inflight == s.inflight && t.committed == s.committed && t.scored == s.scored
    && t.starts == s.starts && t.lost == s.lost
  }

  function WithStage(s: State, run: nat, stage: Stage): (t: State)
    requires IsRunning(s, run)
    ensures SameRelaySide(s, t) && t.redis == s.redis && t.lost == s.lost && t.committed == s.committed
  {
    s.(inflight := s.inflight[run := s.inflight[run].(stage := stage)])
  }

  /** Enqueue of a fresh job: it gets the next id, and a push that took effect is on record. */
  function Send(s: State, job: Job, reply: Reply): (t: State)
    ensures SameRelaySide(s, t) && SameWorkerSide(s, t)
  {
    var id := s.redis.issued + 1;
    s.(redis := EnqueueTo(s.redis, job, reply),
       minted := if reply.Refused? then s.minted else s.minted[id := Prepared(job, id)])
  }

  function NewRow(payload: Payload): Row {
    Row(payload, Unpublished, 0)
  }

  function CommitBatchEffect(s: State, run: nat, rows: map<nat, Job>): (t: State)
    requires IsRunning(s, run)
    ensures SameRelaySide(s, t.(outbox := s.outbox)) && s.outbox.Keys <= t.outbox.Keys
    ensures t.redis == s.redis && t.lost == s.lost
  {
    WithStage(s, run, Written).(
      outbox := s.outbox + (map row | row in rows :: NewRow(Parsed(rows[row]))),
      committed := s.committed + set row | row in rows :: rows[row].business)
  }

  function PublishEffect(s: State, relay: nat, reply: Reply): (t: State)
    requires relay in s.claims && s.claims[relay].next < |s.claims[relay].rows|
    requires s.claims[relay].rows[s.claims[relay].next] in s.outbox
    ensures SameWorkerSide(s, t) && t.outbox == s.outbox && t.redis.dead == s.redis.dead
  {
    var c := s.claims[relay];
    var row := c.rows[c.next];
    var advanced := s.claims[relay := c.(next := c.next + 1)];
    match s.outbox[row].payload
    case Unparseable => s.(claims := advanced)
    case Parsed(job) =>
      var t := Send(s, job, reply);
      if reply.Acked? then
        t.(claims := advanced, pushes := s.pushes + multiset{row})
      else
        var halted := s.claims[relay := c.(phase := if c.next > 0 then Marking else Reporting)];
        var reports := if c.next > 0 then s.reports else s.reports[relay := row];
        if reply.Unacked? then
          t.(claims := halted, reports := reports,
             pushes := s.pushes + multiset{row},
             unacked := s.unacked + multiset{row})
        else
          t.(claims := halted, reports := reports)
  }

  predicate IsParsed(s: State, row: nat) {
    row in s.outbox && s.outbox[row].payload.Parsed?
  }

  /** The rows a claim has pushed: the parseable ones it has dealt with. */
  function PushedBy(s: State, c: Claim): set<nat>
    requires c.next <= |c.rows|
  {
    set row | row in c.rows[..c.next] && IsParsed(s, row)
  }

  function CommitClaimEffect(s: State, relay: nat): (t: State)
    requires relay in s.claims && s.claims[relay].next <= |s.claims[relay].rows|
    ensures SameWorkerSide(s, t) && t.redis == s.redis && t.minted == s.minted && t.outbox.Keys == s.outbox.Keys
  {
    var c := s.claims[relay];
    s.(outbox := map row | row in s.outbox ::
                   if row in c.rows[..c.next] then s.outbox[row].(status := Published) else s.outbox[row],
       claims := s.claims - {relay})
  }

  function AbortClaimEffect(s: State, relay: nat): (t: State)
    requires relay in s.claims && s.claims[relay].next <= |s.claims[relay].rows|
    ensures SameWorkerSide(s, t) && t.redis == s.redis && t.minted == s.minted && t.outbox == s.outbox
  {
    s.(claims := s.claims - {relay},
       aborted := s.aborted + multiset(PushedBy(s, s.claims[relay])))
  }

  /** The report counts an attempt on whatever is left of the row, published or not. */
  function RecordFailureEffect(s: State, relay: nat): (t: State)
    requires relay in s.reports && s.reports[relay] in s.outbox
    ensures SameWorkerSide(s, t) && t.redis == s.redis && t.minted == s.minted && t.outbox.Keys == s.outbox.Keys
  {
    var row := s.reports[relay];
    s.(outbox := if s.outbox[row].status == Purged then s.outbox
                 else s.outbox[row := s.outbox[row].(attempts := s.outbox[row].attempts + 1)],
       reports := s.reports - {relay})
  }

  function PurgeEffect(s: State, ids: set<nat>): (t: State)
    ensures SameWorkerSide(s, t) && t.redis == s.redis && t.minted == s.minted
    ensures SameRelaySide(s, t.(outbox := s.outbox)) && t.outbox.Keys == s.outbox.Keys
  {
    s.(outbox := map row | row in s.outbox ::
                   if row in ids then s.outbox[row].(status := Purged) else s.outbox[row])
  }

  /** BRPOP takes the oldest entry; `delivered` is false when the reply never reaches the worker. */
  function PopEffect(s: State, delivered: bool): (t: State)
    requires s.redis.main != []
    ensures SameRelaySide(s, t) && t.committed == s.committed && (delivered ==> t.lost == s.lost)
  {
    var popped := s.(redis := PopFrom(s.redis, delivered));
    match s.redis.main[|s.redis.main| - 1]
    case Raw(_) => popped
    case Stored(job) =>
      if delivered
      then popped.(inflight := s.inflight + [Run(job, Running)], starts := s.starts + multiset{job.id})
      else popped.(lost := s.lost + [job])
  }

  function ChildOf(job: Job, child: Kind): Job {
    Job(NO_ID, child, job.business, "", 0, 0, "")
  }

  function HandOffEffect(s: State, run: nat, child: Kind, reply: Reply): (t: State)
    requires IsRunning(s, run)
    ensures SameRelaySide(s, t) && t.redis.dead == s.redis.dead && t.lost == s.lost && t.committed == s.committed
  {
    WithStage(Send(s, ChildOf(s.inflight[run].job, child), reply), run,
              if reply.Acked? then HandedOff else Failing)
  }

  function RequeueEffect(s: State, run: nat, cause: Option<string>, reply: Reply): (t: State)
    requires IsRunning(s, run)
    ensures SameRelaySide(s, t) && t.committed == s.committed && (reply != Refused ==> t.lost == s.lost)
  {
    var job := s.inflight[run].job;
    s.(redis := RequeueTo(s.redis, job, cause, reply),
       inflight := Without(s.inflight, run),
       lost := if reply.Refused? then s.lost + [job] else s.lost)
  }

  /** A run that already handed its work on takes nothing with it when it dies. */
  function DieEffect(s: State, run: nat): (t: State)
    requires IsRunning(s, run)
    ensures SameRelaySide(s, t) && t.redis == s.redis
  {
    s.(inflight := Without(s.inflight, run),
       lost := if s.inflight[run].stage == HandedOff then s.lost else s.lost + [s.inflight[run].job])
  }

  function Apply(s: State, step: Step): State
    requires Enabled(s, step)
  {
    match step
    case CommitBatch(run, rows) => CommitBatchEffect(s, run, rows)
    case WriteRow(row, payload) => s.(outbox := s.outbox[row := NewRow(payload)])
    case ApiEnqueue(job, reply) => Send(s, job, reply)
    case ForeignPush(bytes) => s.(redis := s.redis.(main := [Raw(bytes)] + s.redis.main))
    case BeginClaim(relay, _, batch) => s.(claims := s.claims[relay := Claim(batch, 0, Scanning)])
    case Publish(relay, reply) => PublishEffect(s, relay, reply)
    case CommitClaim(relay) => CommitClaimEffect(s, relay)
    case AbortClaim(relay) => AbortClaimEffect(s, relay)
    case RecordFailure(relay) => RecordFailureEffect(s, relay)
    case GiveUpReport(relay) => s.(reports := s.reports - {relay})
    case Purge(ids) => PurgeEffect(s, ids)
    case Pop(delivered) => PopEffect(s, delivered)
    case StoreScore(run) =>
      WithStage(s, run, Written).(scored := s.scored + {s.inflight[run].job.business})
    case HandOff(run, child, reply) => HandOffEffect(s, run, child, reply)
    case Finish(run) => s.(inflight := Without(s.inflight, run))
    case Fail(run) => WithStage(s, run, Failing)
    case Requeue(run, cause, reply) => RequeueEffect(s, run, cause, reply)
    case Die(run) => DieEffect(s, run)
  }

  /******* Runs *******/

  /** `steps` is a run from `s` that ends in `t`. */
  ghost predicate Runs(s: State, steps: seq<Step>, t: State)
    decreases steps
  {
    if steps == [] then t == s
    else Enabled(s, steps[0]) && Runs(Apply(s, steps[0]), steps[1..], t)
  }

  /** Some interleaving of everybody's steps leads here from the empty system. */
  ghost predicate Reachable(s: State) {
    exists steps :: Runs(INIT, steps, s)
  }

  lemma {:induction false} RunsAppend(s: State, first: seq<Step>, t: State, second: seq<Step>, u: State)
    requires Runs(s, first, t) && Runs(t, second, u)
    ensures Runs(s, first + second, u)
    decreases first
  {
    hide Enabled, Apply;
    if first == [] {
      assert first + second == second;
    } else {
      RunsAppend(Apply(s, first[0]), first[1..], t, second, u);
      assert (first + second)[1..] == first[1..] + second;
    }
  }

  lemma ReachableOn(s: State, step: Step)
    requires Reachable(s) && Enabled(s, step)
    ensures Reachable(Apply(s, step))
  {
    var steps :| Runs(INIT, steps, s);
    var t := Apply(s, step);
    assert Runs(t, [], t);
    assert [step][1..] == [];
    assert Runs(s, [step], t);
    RunsAppend(INIT, steps, s, [step], t);
  }

  lemma RunsOn(s: State, step: Step, steps: seq<Step>, t: State)
    requires Enabled(s, step) && Runs(Apply(s, step), steps, t)
    ensures Runs(s, [step] + steps, t)
  {
    hide Enabled, Apply;
    assert ([step] + steps)[1..] == steps;
  }
}
