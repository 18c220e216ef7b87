/** The job handlers, and what a worker does with one job, while everyone else keeps taking steps. */
module Handlers {
  import opened Jobs
  import opened Pipeline
  import opened Sequences
  import opened Retries
  import BusinessStore
  import Relay

  datatype Audit = Report | NotConfigured | Broken

  /**
   What a handler meets. `loads`: its payload and the rows it cannot do without are there. `stores`: its
   other writes succeed. `write`: the fate of the one transaction the next stage depends on. `push`: Redis's
   reply to the child. `listings`: what the source delivers to a collection, with the upserts that fail,
   whether writing the outbox rows does, and the time. `cause`: the text of an error, if any.
   */
  datatype Facts = Facts(loads: bool, stores: bool, socialOnly: bool, crawled: bool, reachable: bool, hasAI: bool,
                         audit: Audit, hasAudit: bool, write: Reply, push: Reply,
                         listings: seq<BusinessStore.Listing>, upsertFails: nat -> bool, outboxFails: bool, now: nat,
                         cause: string)

  /******* Interference *******/

  /** This step is taken on the run of job `id`. */
  predicate OnRun(s: State, step: Step, id: nat) {
    match step
    case CommitBatch(run, _) => IsRunning(s, run) && s.inflight[run].job.id == id
    case StoreScore(run) => IsRunning(s, run) && s.inflight[run].job.id == id
    case HandOff(run, _, _) => IsRunning(s, run) && s.inflight[run].job.id == id
    case Finish(run) => IsRunning(s, run) && s.inflight[run].job.id == id
    case Fail(run) => IsRunning(s, run) && s.inflight[run].job.id == id
    case Requeue(run, _, _) => IsRunning(s, run) && s.inflight[run].job.id == id
    case Die(run) => IsRunning(s, run) && s.inflight[run].job.id == id
    case _ => false
  }

  lemma OthersKeepRun(s: State, step: Step, r: Run)
    requires Enabled(s, step) && r in s.inflight && !OnRun(s, step, r.job.id)
    ensures r in Apply(s, step).inflight
  {
    match step
    case CommitBatch(run, _) => UpdateKeeps(s.inflight, run, s.inflight[run].(stage := Written), r);
    case StoreScore(run) => UpdateKeeps(s.inflight, run, s.inflight[run].(stage := Written), r);
    case HandOff(run, _, reply) =>
      UpdateKeeps(s.inflight, run, s.inflight[run].(stage := if reply.Acked? then HandedOff else Failing), r);
    case Finish(run) => WithoutKeeps(s.inflight, run, r);
    case Fail(run) => UpdateKeeps(s.inflight, run, s.inflight[run].(stage := Failing), r);
    case Requeue(run, _, _) => WithoutKeeps(s.inflight, run, r);
    case Die(run) => WithoutKeeps(s.inflight, run, r);
    case _ =>
  }

  lemma ScoresStay(s: State, step: Step)
    requires Enabled(s, step)
    ensures s.scored <= Apply(s, step).scored
  {
  }

  /** The kinds of the children that a run's steps push for job `id`, in order, whatever Redis replies. */
  ghost function Children(s: State, steps: seq<Step>, id: nat): seq<Kind>
    decreases steps
  {
    if steps == [] || !Enabled(s, steps[0]) then []
    else (if IsHandOff(s, steps[0], id) then [steps[0].child] else []) + Children(Apply(s, steps[0]), steps[1..], id)
  }

  predicate IsHandOff(s: State, step: Step, id: nat) {
    step.HandOff? && OnRun(s, step, id)
  }

  lemma {:induction false} OneMoreStep(s: State, steps: seq<Step>, t: State, step: Step, id: nat)
    requires Runs(s, steps, t) && Enabled(t, step)
    ensures Children(s, steps + [step], id) == Children(s, steps, id) + if IsHandOff(t, step, id) then [step.child] else []
    decreases steps
  {
    hide Enabled, Apply, IsHandOff;
    if steps == [] {
      assert steps + [step] == [step];
      assert [step][1..] == [];
    } else {
      OneMoreStep(Apply(s, steps[0]), steps[1..], t, step, id);
      assert (steps + [step])[1..] == steps[1..] + [step];
    }
  }

  /** Everyone else takes those of the scheduled steps that are enabled when their turn comes. */
  function AfterOthers(s: State, id: nat, others: seq<Step>): State
    decreases others
  {
    if others == [] then s
    else AfterOthers(if OnRun(s, others[0], id) then s else Relay.Next(s, others[0]), id, others[1..])
  }

  lemma OneMoreOther(s: State, id: nat, others: seq<Step>, k: nat)
    requires k < |others|
    ensures AfterOthers(s, id, others[k..]) ==
              AfterOthers(if Enabled(s, others[k]) && !OnRun(s, others[k], id) then Apply(s, others[k]) else s, id, others[k + 1..])
  {
    hide Enabled, Apply;
    assert others[k..][0] == others[k] && others[k..][1..] == others[k + 1..];
  }

  lemma NoOthers(s: State, id: nat, others: seq<Step>)
    ensures AfterOthers(s, id, others[|others|..]) == s && others[0..] == others
  {
  }

  /** `trace` led here, and this run is under way. */
  ghost predicate At(start: State, trace: seq<Step>, s: State, r: Run) {
    RetryInv(s) && Runs(start, trace, s) && r in s.inflight
  }

  method LetOthersMove(w: Relay.World, r: Run, others: seq<Step>, ghost start: State, ghost trace: seq<Step>)
    returns (ghost longer: seq<Step>)
    requires At(start, trace, w.s, r)
    modifies w
    ensures At(start, longer, w.s, r) && old(w.s).scored <= w.s.scored
    ensures Children(start, longer, r.job.id) == Children(start, trace, r.job.id)
    ensures w.s == AfterOthers(old(w.s), r.job.id, others)
  {
    hide *;
    longer := trace;
    NoOthers(w.s, r.job.id, others);
    for k := 0 to |others|
      invariant AfterOthers(w.s, r.job.id, others[k..]) == AfterOthers(old(w.s), r.job.id, others)
      invariant At(start, longer, w.s, r) && old(w.s).scored <= w.s.scored
      invariant Children(start, longer, r.job.id) == Children(start, trace, r.job.id)
    {
      OneMoreOther(w.s, r.job.id, others, k);
      if Enabled(w.s, others[k]) && !OnRun(w.s, others[k], r.job.id) {
        longer := TakeStep(w, r, others[k], start, longer);
      }
    }
    NoOthers(w.s, r.job.id, others);
  }

  method TakeStep(w: Relay.World, r: Run, step: Step, ghost start: State, ghost trace: seq<Step>)
    returns (ghost longer: seq<Step>)
    requires At(start, trace, w.s, r) && Enabled(w.s, step) && !OnRun(w.s, step, r.job.id)
    modifies w
    ensures At(start, longer, w.s, r) && old(w.s).scored <= w.s.scored && w.s == Apply(old(w.s), step)
    ensures Children(start, longer, r.job.id) == Children(start, trace, r.job.id)
  {
    hide RetryInv, Enabled, Apply;
    StepKeepsRetries(w.s, step);
    OthersKeepRun(w.s, step, r);
    ScoresStay(w.s, step);
    OneMoreStep(start, trace, w.s, step, r.job.id);
    Relay.Continue(start, w, trace, step);
    longer := trace + [step];
  }

  /******* What handlers do to the hand-off *******/

  /** The one step that `r` takes: the push of a child, the score write, the collection's commit. */
  ghost predicate Pushes(s: State, r: Run, child: Kind, reply: Reply, t: State) {
    exists i: nat :: i < |s.inflight| && s.inflight[i] == r && t == Relay.Next(s, HandOff(i, child, reply))
  }

  ghost predicate Scores(s: State, r: Run, t: State) {
    exists i: nat :: i < |s.inflight| && s.inflight[i] == r && t == Relay.Next(s, StoreScore(i))
  }

  ghost predicate Commits(s: State, r: Run, jobs: seq<Job>, t: State) {
    exists i: nat, base: nat :: i < |s.inflight| && s.inflight[i] == r && (forall row :: row in s.outbox ==> row < base)
                               && t == Relay.Next(s, CommitBatch(i, RowsFrom(base, jobs)))
  }

  /** The newest entry of the main list is a child of this kind for this business. */
  predicate Queued(s: State, b: nat, kind: Kind) {
    && s.redis.main != [] && s.redis.main[0].Stored?
    && var job := s.redis.main[0].job;
       job.kind == kind && job.business == b && job.retries == 0 && job.maxRetries == 3
  }

  lemma PushQueues(s: State, i: nat, child: Kind, reply: Reply)
    requires Enabled(s, HandOff(i, child, reply))
    ensures var r, t := s.inflight[i], Apply(s, HandOff(i, child, reply));
            && r.(stage := if reply.Acked? then HandedOff else Failing) in t.inflight
            && t.scored == s.scored
            && (reply != Refused ==> Queued(t, r.job.business, child))
  {
    var t := HandOffEffect(s, i, child, reply);
    assert t.inflight[i] == s.inflight[i].(stage := if reply.Acked? then HandedOff else Failing);
  }

  method PushChild(w: Relay.World, r: Run, child: Kind, reply: Reply, ghost start: State, ghost trace: seq<Step>)
    returns (ok: bool, next: Run, ghost longer: seq<Step>)
    requires At(start, trace, w.s, r) && MayHandOff(r, child)
    modifies w
    ensures ok <==> reply == Acked
    ensures next == r.(stage := if ok then HandedOff else Failing) && At(start, longer, w.s, next)
    ensures reply != Refused ==> Queued(w.s, r.job.business, child)
    ensures w.s.scored == old(w.s).scored
    ensures Pushes(old(w.s), r, child, reply, w.s)
    ensures Children(start, longer, r.job.id) == Children(start, trace, r.job.id) + [child]
  {
    hide Children;
    var i: nat :| i < |w.s.inflight| && w.s.inflight[i] == r;
    var step := HandOff(i, child, reply);
    StepKeepsRetries(w.s, step);
    OneMoreStep(start, trace, w.s, step, r.job.id);
    PushQueues(w.s, i, child, reply);
    hide RetryInv, Queued, Apply;
    Relay.Continue(start, w, trace, step);
    ok, next, longer := reply == Acked, r.(stage := if reply.Acked? then HandedOff else Failing), trace + [step];
  }

  /** The score write, which may land although an error is reported. */
  method RecordScore(w: Relay.World, r: Run, write: Reply, ghost start: State, ghost trace: seq<Step>)
    returns (ok: bool, next: Run, ghost longer: seq<Step>)
    requires At(start, trace, w.s, r) && r.job.kind == RuleScoring && r.stage == Running
    modifies w
    ensures ok <==> write == Acked
    ensures next == (if write == Refused then r else r.(stage := Written)) && At(start, longer, w.s, next)
    ensures write != Refused ==> r.job.business in w.s.scored
    ensures if write == Refused then w.s == old(w.s) else Scores(old(w.s), r, w.s)
    ensures Children(start, longer, r.job.id) == Children(start, trace, r.job.id)
  {
    ok, next, longer := write == Acked, r, trace;
    if write != Refused {
      var i: nat :| i < |w.s.inflight| && w.s.inflight[i] == r;
      StepKeepsRetries(w.s, StoreScore(i));
      OneMoreStep(start, trace, w.s, StoreScore(i), r.job.id);
      hide RetryInv;
      Relay.Continue(start, w, trace, StoreScore(i));
      next, longer := r.(stage := Written), trace + [StoreScore(i)];
      assert w.s.inflight[i] == next;
    }
  }

  /** The next value of the outbox's id sequence. */
  method NextRow(s: State) returns (n: nat)
    ensures forall row :: row in s.outbox ==> row < n
  {
    n := 0;
    var left := s.outbox.Keys;
    while left != {}
      invariant left <= s.outbox.Keys
      invariant forall row :: row in s.outbox && row !in left ==> row < n
      decreases |left|
    {
      var row :| row in left;
      n := if row >= n then row + 1 else n;
      left := left - {row};
    }
  }

  /** One new row per job, in order. */
  function RowsFrom(base: nat, jobs: seq<Job>): (rows: map<nat, Job>)
    ensures forall row :: row in rows <==> base <= row < base + |jobs|
    ensures forall row :: row in rows ==> rows[row] == jobs[row - base]
  {
    if jobs == [] then map[]
    else
      var n := |jobs| - 1;
      RowsFrom(base, jobs[..n])[base + n := jobs[n]]
  }

  lemma BatchCommits(s: State, i: nat, base: nat, jobs: seq<Job>)
    requires IsRunning(s, i) && s.inflight[i].job.kind == CollectBusiness && s.inflight[i].stage == Running
    requires forall row :: row in s.outbox ==> row < base
    requires forall k :: 0 <= k < |jobs| ==> FollowUp(jobs[k])
    ensures var step := CommitBatch(i, RowsFrom(base, jobs));
            && Enabled(s, step)
            && s.inflight[i].(stage := Written) in Apply(s, step).inflight
            && forall k :: 0 <= k < |jobs| ==> jobs[k].business in Apply(s, step).committed
  {
    var rows := RowsFrom(base, jobs);
    var t := CommitBatchEffect(s, i, rows);
    assert t.inflight[i] == s.inflight[i].(stage := Written);
    forall k | 0 <= k < |jobs| ensures jobs[k].business in t.committed {
      assert rows[base + k] == jobs[k];
    }
  }

  /** The collection's one transaction: its businesses are committed together with their outbox rows. */
  method CommitRows(w: Relay.World, r: Run, jobs: seq<Job>, write: Reply, ghost start: State, ghost trace: seq<Step>)
    returns (ok: bool, next: Run, ghost longer: seq<Step>)
    requires At(start, trace, w.s, r) && r.job.kind == CollectBusiness && r.stage == Running
    requires forall i :: 0 <= i < |jobs| ==> FollowUp(jobs[i])
    modifies w
    ensures ok <==> write == Acked
    ensures next == (if write == Refused then r else r.(stage := Written)) && At(start, longer, w.s, next)
    ensures write != Refused ==> forall i :: 0 <= i < |jobs| ==> jobs[i].business in w.s.committed
    ensures if write == Refused then w.s == old(w.s) else Commits(old(w.s), r, jobs, w.s)
    ensures Children(start, longer, r.job.id) == Children(start, trace, r.job.id)
  {
    ok, next, longer := write == Acked, r, trace;
    if write != Refused {
      var i: nat :| i < |w.s.inflight| && w.s.inflight[i] == r;
      var base := NextRow(w.s);
      var step := CommitBatch(i, RowsFrom(base, jobs));
      BatchCommits(w.s, i, base, jobs);
      StepKeepsRetries(w.s, step);
      OneMoreStep(start, trace, w.s, step, r.job.id);
      hide Enabled, Apply, RetryInv, RowsFrom;
      Relay.Continue(start, w, trace, step);
      next, longer := r.(stage := Written), trace + [step];
    }
  }

  /******* The handlers *******/

  /** The whole state each handler leaves: when others move, and what it does itself, in which order. */
  ghost predicate CrawlEnds(s: State, r: Run, f: Facts, others: nat -> seq<Step>, t: State) {
    var one := AfterOthers(s, r.job.id, others(0));
    if !f.loads then t == s
    else if !f.stores || !(f.socialOnly || f.crawled) then t == one
    else if f.socialOnly then Pushes(one, r, RuleScoring, f.push, t)
    else Pushes(AfterOthers(one, r.job.id, others(1)), r, if f.reachable && f.hasAI then AIAudit else RuleScoring, f.push, t)
  }

  ghost predicate AuditEnds(s: State, r: Run, f: Facts, others: nat -> seq<Step>, t: State) {
    var one := AfterOthers(s, r.job.id, others(0));
    if !f.hasAI then Pushes(AfterOthers(s, r.job.id, others(1)), r, RuleScoring, f.push, t)
    else if !f.loads then t == s
    else if f.audit == Broken || (f.audit == Report && !f.stores) then t == one
    else Pushes(AfterOthers(one, r.job.id, others(1)), r, RuleScoring, f.push, t)
  }

  ghost predicate ScoreEnds(s: State, r: Run, f: Facts, others: nat -> seq<Step>, t: State) {
    var one := AfterOthers(s, r.job.id, others(0));
    if !f.loads then t == s
    else if f.write == Refused then t == one
    else if f.write == Unacked then Scores(one, r, t)
    else exists two :: Scores(one, r, two)
                       && Pushes(AfterOthers(two, r.job.id, others(1)), r.(stage := Written), GenRecommendation, f.push, t)
  }

  ghost predicate RecommendEnds(s: State, r: Run, f: Facts, others: nat -> seq<Step>, t: State) {
    var one := AfterOthers(s, r.job.id, others(0));
    if !f.loads then t == s
    else if !f.hasAudit || !f.stores then t == one
    else Pushes(one, r, EmbedLead, f.push, t)
  }

  ghost predicate CollectEnds(s: State, r: Run, f: Facts, jobs: seq<Job>, others: nat -> seq<Step>, t: State) {
    var one := AfterOthers(s, r.job.id, others(0));
    if !f.loads then t == s
    else if !Lands(f) then t == one
    else Commits(one, r, jobs, t)
  }

  /** A site that can be read is audited if there is a model; everything else goes straight to scoring. */
  method CrawlWebsite(w: Relay.World, r: Run, f: Facts, others: nat -> seq<Step>, ghost start: State, ghost trace: seq<Step>)
    returns (ok: bool, next: Run, ghost longer: seq<Step>)
    requires At(start, trace, w.s, r) && r.job.kind == WebsiteCrawl && r.stage == Running
    modifies w
    ensures At(start, longer, w.s, next) && next.job == r.job && CrawlEnds(old(w.s), r, f, others, w.s)
    ensures var reaches := f.loads && f.stores && (f.socialOnly || f.crawled);
            && (ok <==> reaches && f.push == Acked)
            && (ok ==> next.stage == HandedOff)
            && (reaches && f.push != Refused ==>
                  Queued(w.s, r.job.business, if f.reachable && f.hasAI && !f.socialOnly then AIAudit else RuleScoring))
            && Children(start, longer, r.job.id) == Children(start, trace, r.job.id) + if reaches then [if f.reachable && f.hasAI && !f.socialOnly then AIAudit else RuleScoring] else []
  {
    hide At, Queued, Children, AfterOthers, Pushes, Scores;
    ok, next, longer := false, r, trace;
    if !f.loads {
      return;
    }
    longer := LetOthersMove(w, r, others(0), start, longer);
    if f.socialOnly {
      if f.stores {
        ok, next, longer := PushChild(w, r, RuleScoring, f.push, start, longer);
      }
      return;
    }
    if !f.crawled || !f.stores {
      return;
    }
    longer := LetOthersMove(w, r, others(1), start, longer);
    ok, next, longer := PushChild(w, r, if f.reachable && f.hasAI then AIAudit else RuleScoring, f.push, start, longer);
  }

  /** With no model, before or on asking, the audit is skipped; a failing model is an error. */
  method AuditWebsite(w: Relay.World, r: Run, f: Facts, others: nat -> seq<Step>, ghost start: State, ghost trace: seq<Step>)
    returns (ok: bool, next: Run, ghost longer: seq<Step>)
    requires At(start, trace, w.s, r) && r.job.kind == AIAudit && r.stage == Running
    modifies w
    ensures At(start, longer, w.s, next) && next.job == r.job && AuditEnds(old(w.s), r, f, others, w.s)
    ensures var reaches := !f.hasAI || (f.loads && (f.audit == NotConfigured || (f.audit == Report && f.stores)));
            && (ok <==> reaches && f.push == Acked)
            && (ok ==> next.stage == HandedOff)
            && (reaches && f.push != Refused ==> Queued(w.s, r.job.business, RuleScoring))
            && Children(start, longer, r.job.id) == Children(start, trace, r.job.id) + if reaches then [RuleScoring] else []
  {
    hide At, Queued, Children, AfterOthers, Pushes, Scores;
    ok, next, longer := false, r, trace;
    if f.hasAI {
      if !f.loads {
        return;
      }
      longer := LetOthersMove(w, r, others(0), start, longer);
      if f.audit == Broken || (f.audit == Report && !f.stores) {
        return;
      }
    }
    longer := LetOthersMove(w, r, others(1), start, longer);
    ok, next, longer := PushChild(w, r, RuleScoring, f.push, start, longer);
  }

  /**
   Nothing is pushed before the score is stored, so a business whose recommendation is queued is scored.
   An error after that leaves the score, and after an unacknowledged push the child too.
   */
  method ScoreLead(w: Relay.World, r: Run, f: Facts, others: nat -> seq<Step>, ghost start: State, ghost trace: seq<Step>)
    returns (ok: bool, next: Run, ghost longer: seq<Step>)
    requires At(start, trace, w.s, r) && r.job.kind == RuleScoring && r.stage == Running
    modifies w
    ensures At(start, longer, w.s, next) && next.job == r.job && ScoreEnds(old(w.s), r, f, others, w.s)
    ensures f.loads && f.write != Refused ==> r.job.business in w.s.scored
    ensures var reaches := f.loads && f.write == Acked;
            && (ok <==> reaches && f.push == Acked)
            && (ok ==> next.stage == HandedOff)
            && (reaches && f.push != Refused ==> Queued(w.s, r.job.business, GenRecommendation))
            && Children(start, longer, r.job.id) == Children(start, trace, r.job.id) + if reaches then [GenRecommendation] else []
  {
    hide At, Queued, Children, AfterOthers, Pushes, Scores;
    ok, next, longer := false, r, trace;
    if !f.loads {
      return;
    }
    longer := LetOthersMove(w, r, others(0), start, longer);
    ok, next, longer := RecordScore(w, r, f.write, start, longer);
    if !ok {
      return;
    }
    longer := LetOthersMove(w, next, others(1), start, longer);
    ok, next, longer := PushChild(w, next, GenRecommendation, f.push, start, longer);
  }

  /** Without an audit the chain ends here, before the lead is embedded. */
  method Recommend(w: Relay.World, r: Run, f: Facts, others: nat -> seq<Step>, ghost start: State, ghost trace: seq<Step>)
    returns (ok: bool, next: Run, ghost longer: seq<Step>)
    requires At(start, trace, w.s, r) && r.job.kind == GenRecommendation && r.stage == Running
    modifies w
    ensures At(start, longer, w.s, next) && next.job == r.job && RecommendEnds(old(w.s), r, f, others, w.s)
    ensures var reaches := f.loads && f.hasAudit && f.stores;
            && (ok <==> (f.loads && !f.hasAudit) || (reaches && f.push == Acked))
            && (ok ==> next.stage == if f.hasAudit then HandedOff else Running)
            && (reaches && f.push != Refused ==> Queued(w.s, r.job.business, EmbedLead))
            && Children(start, longer, r.job.id) == Children(start, trace, r.job.id) + if reaches then [EmbedLead] else []
  {
    hide At, Queued, Children, AfterOthers, Pushes, Scores;
    ok, next, longer := false, r, trace;
    if !f.loads {
      return;
    }
    longer := LetOthersMove(w, r, others(0), start, longer);
    if !f.hasAudit {
      return true, next, longer;
    }
    if f.stores {
      ok, next, longer := PushChild(w, r, EmbedLead, f.push, start, longer);
    }
  }

  /** The collection's transaction takes effect: no statement fails, and the commit, if there is one, lands. */
  predicate Lands(f: Facts) {
    && f.loads
    && (forall i: nat | i < |f.listings| :: !f.upsertFails(i))
    && (f.listings == [] || (!f.outboxFails && f.write != Refused))
  }

  /** This listing's row in the table is business `b`, and it counts as committed. */
  predicate StoredAs(s: State, t: BusinessStore.Table, listing: BusinessStore.Listing, b: nat) {
    && b in t.rows && b in s.committed
    && var key := BusinessStore.KeyOf(listing);
       key.Some? ==> key.value in t.index && t.index[key.value] == b
  }

  lemma CommittedAreStored(s: State, t: BusinessStore.Table, listings: seq<BusinessStore.Listing>, now: nat, jobs: seq<Job>)
    requires BusinessStore.Valid(t) && jobs == BusinessStore.JobsFor(t, listings, now, BusinessStore.CollectJob)
    requires forall i :: 0 <= i < |jobs| ==> jobs[i].business in s.committed
    ensures |jobs| == |listings|
    ensures forall i :: 0 <= i < |listings| ==>
              StoredAs(s, BusinessStore.UpsertAll(t, listings, now), listings[i], jobs[i].business)
  {
    BusinessStore.EveryListingIsFollowedUp(t, listings, now);
  }

  /**
   The businesses a collection commits are the rows its transaction stores for its listings, each with its
   follow-up job in the outbox. A collection whose transaction fails changes nothing; one that is told so
   although it landed has committed all the same.
   */
  method Collect(w: Relay.World, store: BusinessStore.Store, r: Run, f: Facts, others: nat -> seq<Step>,
                 ghost start: State, ghost trace: seq<Step>)
    returns (ok: bool, next: Run, ghost longer: seq<Step>)
    requires At(start, trace, w.s, r) && r.job.kind == CollectBusiness && r.stage == Running
    requires BusinessStore.Valid(store.Value())
    modifies w, store
    ensures At(start, longer, w.s, next) && next.job == r.job
    ensures var jobs := BusinessStore.JobsFor(old(store.Value()), f.listings, f.now, BusinessStore.CollectJob);
            CollectEnds(old(w.s), r, f, jobs, others, w.s)
    ensures Children(start, longer, r.job.id) == Children(start, trace, r.job.id)
    ensures ok <==> Lands(f) && (f.listings == [] || f.write == Acked)
    ensures BusinessStore.Valid(store.Value())
    ensures !Lands(f) ==> next == r && store.Value() == old(store.Value()) && store.outbox == old(store.outbox)
    ensures Lands(f) ==>
              var jobs := BusinessStore.JobsFor(old(store.Value()), f.listings, f.now, BusinessStore.CollectJob);
              && next.stage == Written
              && store.Value() == BusinessStore.UpsertAll(old(store.Value()), f.listings, f.now)
              && store.outbox == old(store.outbox) + jobs
              && |jobs| == |f.listings|
              && forall i :: 0 <= i < |jobs| ==> StoredAs(w.s, store.Value(), f.listings[i], jobs[i].business)
  {
    hide At, Children, BusinessStore.Valid, BusinessStore.UpsertAll, BusinessStore.JobsFor, StoredAs, AfterOthers, Commits;
    ok, next, longer := false, r, trace;
    if !f.loads {
      return;
    }
    longer := LetOthersMove(w, r, others(0), start, longer);
    ghost var before := store.Value();
    BusinessStore.EveryListingIsFollowedUp(before, f.listings, f.now);
    var n := |store.outbox|;
    var outcome, landed := store.BulkInsertWithJobs(f.listings, BusinessStore.CollectJob, f.now, f.upsertFails, f.outboxFails, f.write);
    var jobs := store.outbox[n..];
    ok := outcome.Inserted?;
    assert landed == Lands(f);
    if Lands(f) {
      assert jobs == BusinessStore.JobsFor(before, f.listings, f.now, BusinessStore.CollectJob);
      var told: bool;
      told, next, longer := CommitRows(w, r, jobs, if ok then Acked else Unacked, start, longer);
      CommittedAreStored(w.s, before, f.listings, f.now, jobs);
    }
  }

  /******* One job, start to end *******/

  /**
   What a job's handler comes to, kind by kind: whether it succeeds, and which children it pushes, told from
   what it meets.
   */
  predicate Handled(kind: Kind, f: Facts, ok: bool, children: seq<Kind>) {
    match kind
    case CollectBusiness =>
      && children == []
      && (ok <==> f.loads && (forall i: nat | i < |f.listings| :: !f.upsertFails(i))
                  && (f.listings == [] || (!f.outboxFails && f.write == Acked)))
    case WebsiteCrawl =>
      if f.loads && f.stores && (f.socialOnly || f.crawled)
      then children == [if f.reachable && f.hasAI && !f.socialOnly then AIAudit else RuleScoring] && (ok <==> f.push == Acked)
      else children == [] && !ok
    case AIAudit =>
      if !f.hasAI || (f.loads && (f.audit == NotConfigured || (f.audit == Report && f.stores)))
      then children == [RuleScoring] && (ok <==> f.push == Acked)
      else children == [] && !ok
    case RuleScoring =>
      if f.loads && f.write == Acked
      then children == [GenRecommendation] && (ok <==> f.push == Acked)
      else children == [] && !ok
    case GenRecommendation =>
      if f.loads && f.hasAudit && f.stores
      then children == [EmbedLead] && (ok <==> f.push == Acked)
      else children == [] && (ok <==> f.loads && !f.hasAudit)
    case Unknown(_) => children == [] && ok
    case ExtractContacts => children == [] && (ok <==> f.loads && f.stores)
    case ExtractTechnology => children == [] && (ok <==> f.loads && f.stores)
    case FindSocials => children == [] && (ok <==> f.loads && f.stores)
    case EmbedLead => children == [] && (ok <==> f.loads && f.stores)
  }

  /** The state a handler leaves, kind by kind; `jobs` are the follow-ups a collection writes. */
  ghost predicate Ends(s: State, r: Run, f: Facts, jobs: seq<Job>, others: nat -> seq<Step>, t: State) {
    match r.job.kind
    case CollectBusiness => CollectEnds(s, r, f, jobs, others, t)
    case WebsiteCrawl => CrawlEnds(s, r, f, others, t)
    case RuleScoring => ScoreEnds(s, r, f, others, t)
    case AIAudit => AuditEnds(s, r, f, others, t)
    case GenRecommendation => RecommendEnds(s, r, f, others, t)
    case Unknown(_) => t == s
    case _ => t == AfterOthers(s, r.job.id, others(0))
  }

  /** What the handler leaves of the business table and its outbox: a collection alone writes to them. */
  predicate StoreEnds(table: BusinessStore.Table, outbox: seq<Job>, kind: Kind, f: Facts,
                      after: BusinessStore.Table, outboxAfter: seq<Job>)
    requires BusinessStore.Valid(table)
  {
    if kind == CollectBusiness && Lands(f)
    then after == BusinessStore.UpsertAll(table, f.listings, f.now)
         && outboxAfter == outbox + BusinessStore.JobsFor(table, f.listings, f.now, BusinessStore.CollectJob)
    else after == table && outboxAfter == outbox
  }

  /** What a child pushed without a refusal leaves at the push end of the list, once its handler is done. */
  predicate ChildQueued(s: State, b: nat, f: Facts, children: seq<Kind>) {
    |children| == 1 && f.push != Refused ==> Queued(s, b, children[0])
  }

  /** Dispatch on the kind. The stored-page extractors and embedLead push nothing; an unknown kind is retired. */
  method Execute(w: Relay.World, store: BusinessStore.Store, r: Run, f: Facts, others: nat -> seq<Step>,
                 ghost start: State, ghost trace: seq<Step>)
    returns (ok: bool, next: Run, ghost longer: seq<Step>, ghost children: seq<Kind>)
    requires At(start, trace, w.s, r) && r.stage == Running && BusinessStore.Valid(store.Value())
    modifies w, store
    ensures At(start, longer, w.s, next) && next.job == r.job && BusinessStore.Valid(store.Value())
    ensures ok ==> MayFinish(next) && LedOn(w.s, r.job)
    ensures Children(start, longer, r.job.id) == Children(start, trace, r.job.id) + children
    ensures StoreEnds(old(store.Value()), old(store.outbox), r.job.kind, f, store.Value(), store.outbox)
    ensures Handled(r.job.kind, f, ok, children) && ChildQueued(w.s, r.job.business, f, children)
    ensures var jobs := BusinessStore.JobsFor(old(store.Value()), f.listings, f.now, BusinessStore.CollectJob);
            Ends(old(w.s), r, f, jobs, others, w.s)
  {
    hide At, Children, Queued, BusinessStore.Valid, CollectEnds, CrawlEnds, ScoreEnds, AuditEnds, RecommendEnds, AfterOthers,
         BusinessStore.JobsFor, BusinessStore.UpsertAll, StoredAs;
    match r.job.kind {
      case CollectBusiness => ok, next, longer := Collect(w, store, r, f, others, start, trace);
      case WebsiteCrawl => ok, next, longer := CrawlWebsite(w, r, f, others, start, trace);
      case RuleScoring => ok, next, longer := ScoreLead(w, r, f, others, start, trace);
      case AIAudit => ok, next, longer := AuditWebsite(w, r, f, others, start, trace);
      case GenRecommendation => ok, next, longer := Recommend(w, r, f, others, start, trace);
      case Unknown(_) => ok, next, longer := true, r, trace;
      case _ =>
        longer := LetOthersMove(w, r, others(0), start, trace);
        ok, next := f.loads && f.stores, r;
    }
    children := Children(start, longer, r.job.id)[|Children(start, trace, r.job.id)|..];
  }

  /** A crawl or audit that succeeded has its successor queued; a scoring run has its business scored. */
  predicate LedOn(s: State, job: Job) {
    match job.kind
    case WebsiteCrawl => Queued(s, job.business, AIAudit) || Queued(s, job.business, RuleScoring)
    case AIAudit => Queued(s, job.business, RuleScoring)
    case RuleScoring => job.business in s.scored
    case _ => true
  }

  /** The job went back to the main list, to the dead list, or was lost with the push. */
  predicate PutBack(s: State, job: Job, cause: Option<string>, reply: Reply) {
    var failed := Bumped(job, cause);
    if reply == Refused then job in s.lost
    else if Exhausted(failed) then s.redis.dead != [] && s.redis.dead[0] == Stored(failed)
    else s.redis.main != [] && s.redis.main[0] == Stored(failed)
  }

  /** Taking the only run of a job away leaves none. */
  lemma GoneFromRuns(s: State, i: nat)
    requires OnePlace(s) && i < |s.inflight|
    ensures forall q :: q in Without(s.inflight, i) ==> q.job.id != s.inflight[i].job.id
  {
    var id := s.inflight[i].job.id;
    assert Copies(s, id) <= 1;
    SumWithout(s.inflight, i, RunIs(id));
    forall q | q in Without(s.inflight, i) ensures q.job.id != id {
      SumMember(Without(s.inflight, i), q, RunIs(id));
    }
  }

  /** The one step that ends a run, or marks it failed. */
  ghost predicate Finishes(s: State, r: Run, t: State) {
    exists i: nat :: i < |s.inflight| && s.inflight[i] == r && t == Relay.Next(s, Finish(i))
  }

  ghost predicate Fails(s: State, r: Run, t: State) {
    if r.stage == Failing then t == s
    else exists i: nat :: i < |s.inflight| && s.inflight[i] == r && t == Relay.Next(s, Fail(i))
  }

  ghost predicate Requeues(s: State, r: Run, cause: Option<string>, reply: Reply, t: State) {
    exists i: nat :: i < |s.inflight| && s.inflight[i] == r && t == Relay.Next(s, Requeue(i, cause, reply))
  }

  /** After a failure, others move before the run is marked failed, and before its job is requeued. */
  ghost predicate GoesBack(s: State, r: Run, cause: Option<string>, reply: Reply, others: nat -> seq<Step>, t: State) {
    exists u :: Fails(AfterOthers(s, r.job.id, others(2)), r, u)
                && Requeues(AfterOthers(u, r.job.id, others(3)), r.(stage := Failing), cause, reply, t)
  }

  method FinishRun(w: Relay.World, r: Run, ghost start: State, ghost trace: seq<Step>) returns (ghost longer: seq<Step>)
    requires At(start, trace, w.s, r) && MayFinish(r)
    modifies w
    ensures RetryInv(w.s) && Runs(start, longer, w.s) && w.s.redis == old(w.s).redis && w.s.scored == old(w.s).scored
    ensures Finishes(old(w.s), r, w.s)
    ensures forall q :: q in w.s.inflight ==> q.job.id != r.job.id
    ensures Children(start, longer, r.job.id) == Children(start, trace, r.job.id)
  {
    var i: nat :| i < |w.s.inflight| && w.s.inflight[i] == r;
    StepKeepsRetries(w.s, Finish(i));
    GoneFromRuns(w.s, i);
    OneMoreStep(start, trace, w.s, Finish(i), r.job.id);
    hide RetryInv;
    Relay.Continue(start, w, trace, Finish(i));
    longer := trace + [Finish(i)];
  }

  method MarkFailed(w: Relay.World, r: Run, ghost start: State, ghost trace: seq<Step>) returns (ghost longer: seq<Step>)
    requires At(start, trace, w.s, r)
    modifies w
    ensures At(start, longer, w.s, r.(stage := Failing)) && Fails(old(w.s), r, w.s)
    ensures Children(start, longer, r.job.id) == Children(start, trace, r.job.id)
  {
    longer := trace;
    if r.stage != Failing {
      var i: nat :| i < |w.s.inflight| && w.s.inflight[i] == r;
      StepKeepsRetries(w.s, Fail(i));
      OneMoreStep(start, trace, w.s, Fail(i), r.job.id);
      hide RetryInv;
      Relay.Continue(start, w, trace, Fail(i));
      longer := trace + [Fail(i)];
      assert w.s.inflight[i] == r.(stage := Failing);
    }
  }

  lemma RequeuePutsBack(s: State, i: nat, cause: Option<string>, reply: Reply)
    requires RetryInv(s) && Enabled(s, Requeue(i, cause, reply))
    ensures PutBack(RequeueEffect(s, i, cause, reply), s.inflight[i].job, cause, reply)
  {
    RunIsEnqueued(s, i);
    RequeueWhere(s.redis, s.inflight[i].job, cause, reply);
    hide RequeueTo;
  }

  method RequeueRun(w: Relay.World, r: Run, cause: Option<string>, reply: Reply, ghost start: State, ghost trace: seq<Step>)
    returns (ghost longer: seq<Step>)
    requires At(start, trace, w.s, r) && r.stage == Failing
    modifies w
    ensures RetryInv(w.s) && Runs(start, longer, w.s) && PutBack(w.s, r.job, cause, reply)
    ensures Requeues(old(w.s), r, cause, reply, w.s)
    ensures forall q :: q in w.s.inflight ==> q.job.id != r.job.id
    ensures Children(start, longer, r.job.id) == Children(start, trace, r.job.id)
  {
    var i: nat :| i < |w.s.inflight| && w.s.inflight[i] == r;
    var step := Requeue(i, cause, reply);
    RequeuePutsBack(w.s, i, cause, reply);
    StepKeepsRetries(w.s, step);
    GoneFromRuns(w.s, i);
    OneMoreStep(start, trace, w.s, step, r.job.id);
    hide RetryInv, PutBack, RequeueTo;
    Relay.Continue(start, w, trace, step);
    longer := trace + [step];
  }

  /** The failing end of run: whatever stage the handler got to, its job is requeued. */
  method PutJobBack(w: Relay.World, r: Run, cause: Option<string>, reply: Reply, others: nat -> seq<Step>,
                    ghost start: State, ghost trace: seq<Step>)
    returns (ghost longer: seq<Step>)
    requires At(start, trace, w.s, r)
    modifies w
    ensures RetryInv(w.s) && Runs(start, longer, w.s) && PutBack(w.s, r.job, cause, reply)
    ensures GoesBack(old(w.s), r, cause, reply, others, w.s)
    ensures forall q :: q in w.s.inflight ==> q.job.id != r.job.id
    ensures Children(start, longer, r.job.id) == Children(start, trace, r.job.id)
  {
    hide At, RetryInv, Runs, PutBack, Children, AfterOthers, Fails, Requeues;
    longer := LetOthersMove(w, r, others(2), start, trace);
    longer := MarkFailed(w, r, start, longer);
    longer := LetOthersMove(w, r.(stage := Failing), others(3), start, longer);
    longer := RequeueRun(w, r.(stage := Failing), cause, reply, start, longer);
  }

  lemma FinishedStays(s: State, t: State, job: Job, f: Facts, children: seq<Kind>)
    requires t.redis == s.redis && t.scored == s.scored
    ensures LedOn(s, job) ==> LedOn(t, job)
    ensures ChildQueued(s, job.business, f, children) ==> ChildQueued(t, job.business, f, children)
  {
  }

  lemma StartsBare(s: State, r: Run)
    requires RetryInv(s) && r in s.inflight
    ensures At(s, [], s, r) && Children(s, [], r.job.id) == []
  {
  }

  /**
   A worker's handling of one job from start to end, refining the step system under any interference. When
   it is over the job runs nowhere; either its handler succeeded, and has led the business on, or the job
   was put back. Which children it pushed, and whether it succeeded, is told kind by kind; `done` is the
   state the handler left, and `last` its run there.
   */
  method Process(w: Relay.World, store: BusinessStore.Store, r: Run, f: Facts, requeue: Reply, others: nat -> seq<Step>)
    returns (ok: bool, ghost trace: seq<Step>, ghost done: State, ghost last: Run)
    requires RetryInv(w.s) && r in w.s.inflight && r.stage == Running && BusinessStore.Valid(store.Value())
    modifies w, store
    ensures RetryInv(w.s) && Runs(old(w.s), trace, w.s) && BusinessStore.Valid(store.Value())
    ensures forall q :: q in w.s.inflight ==> q.job.id != r.job.id
    ensures StoreEnds(old(store.Value()), old(store.outbox), r.job.kind, f, store.Value(), store.outbox)
    ensures Handled(r.job.kind, f, ok, Children(old(w.s), trace, r.job.id))
    ensures ok ==> ChildQueued(w.s, r.job.business, f, Children(old(w.s), trace, r.job.id))
    ensures ok ==> LedOn(w.s, r.job)
    ensures !ok ==> PutBack(w.s, r.job, Some(f.cause), requeue)
    ensures var jobs := BusinessStore.JobsFor(old(store.Value()), f.listings, f.now, BusinessStore.CollectJob);
            Ends(old(w.s), r, f, jobs, others, done) && last.job == r.job
    ensures if ok then Finishes(done, last, w.s) else GoesBack(done, last, Some(f.cause), requeue, others, w.s)
  {
    hide RetryInv, At, PutBack, BusinessStore.Valid, Queued, Handled, ChildQueued, LedOn, MayFinish, Children, Runs, Ends,
         Finishes, GoesBack, StoreEnds;
    StartsBare(w.s, r);
    ghost var start := w.s;
    var next;
    ghost var children;
    ok, next, trace, children := Execute(w, store, r, f, others, start, []);
    assert [] + children == children;
    done, last := w.s, next;
    if ok {
      trace := FinishRun(w, next, start, trace);
      FinishedStays(done, w.s, r.job, f, children);
      return;
    }
    trace := PutJobBack(w, next, Some(f.cause), requeue, others, start, trace);
  }
}
