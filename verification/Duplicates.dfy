/** How one outbox row comes to be delivered twice, and how its two deliveries overtake each other. */
module Duplicates {
  import opened Jobs
  import opened Pipeline
  import opened Sequences

  /** An outbox with row 0 alone, unpublished, no claim open and this relay with nothing to report. */
  predicate OneRow(s: State, job: Job, relay: nat) {
    && s.outbox == map[0 := Row(Parsed(job), Unpublished, 0)] && s.claims == map[]
    && relay !in s.reports && s.inflight == []
  }

  lemma Claimed(s: State, job: Job, relay: nat) returns (t: State)
    requires Reachable(s) && OneRow(s, job, relay)
    ensures Reachable(t) && t == s.(claims := map[relay := Claim([0], 0, Scanning)])
  {
    assert IsNextBatch(s, [0], 100);
    t := Apply(s, BeginClaim(relay, 100, [0]));
    hide Enabled, Apply;
    ReachableOn(s, BeginClaim(relay, 100, [0]));
  }

  /** Row 0 is claimed and pushed, and the push lands. */
  lemma ClaimAndPush(s: State, job: Job, relay: nat, reply: Reply) returns (t: State)
    requires Reachable(s) && OneRow(s, job, relay) && job.id == NO_ID && reply != Refused
    ensures Reachable(t) && t.redis.main == [Stored(Prepared(job, s.redis.issued + 1))] + s.redis.main
    ensures t.redis.issued == s.redis.issued + 1 && t.outbox == s.outbox && t.inflight == []
    ensures t.pushes == s.pushes + multiset{0}
    ensures relay in t.claims && t.claims == map[relay := t.claims[relay]]
    ensures t.claims[relay] == if reply == Acked then Claim([0], 1, Scanning) else Claim([0], 0, Reporting)
    ensures t.reports == if reply == Acked then s.reports else s.reports[relay := 0]
  {
    var u := Claimed(s, job, relay);
    hide Reachable, Locked, IsNextBatch;
    t := Apply(u, Publish(relay, reply));
    ReachableOn(u, Publish(relay, reply));
  }

  /**
   A push that lands but is reported as failed: the claim is aborted, the next relay pushes the row again, and
   both copies of its job are in the list.
   */
  lemma PushedTwice(job: Job) returns (s: State)
    requires Fresh(job)
    ensures Reachable(s) && s.inflight == [] && s.pushes[0] == 2
    ensures s.redis.main == [Stored(Prepared(job, 2)), Stored(Prepared(job, 1))]
  {
    assert Runs(INIT, [], INIT);
    assert Reachable(INIT);
    ReachableOn(INIT, WriteRow(0, Parsed(job)));
    var s1 := Apply(INIT, WriteRow(0, Parsed(job)));
    var s2 := ClaimAndPush(s1, job, 0, Unacked);
    var s3 := Apply(s2, AbortClaim(0));
    ReachableOn(s2, AbortClaim(0));
    s := ClaimAndPush(s3, job, 1, Acked);
  }

  const SCORE: seq<Step> := [Pop(true), StoreScore(0), HandOff(0, GenRecommendation, Acked), Finish(0)]

  /** A worker scores the oldest job; its recommendation goes to the back of the list. */
  lemma ScoreOldest(s: State, rest: seq<Entry>, job: Job) returns (t: State, child: Job)
    requires s.redis.main == rest + [Stored(job)] && s.inflight == [] && job.kind == RuleScoring
    ensures Runs(s, SCORE, t) && t.inflight == [] && t.redis.main == [Stored(child)] + rest
    ensures child.kind == GenRecommendation && child.business == job.business && job.business in t.scored
  {
    var s1 := Apply(s, Pop(true));
    assert s1.redis.main == rest && s1.inflight == [Run(job, Running)];
    var s2;
    s2 := ScoreStored(s1, job);
    child := Prepared(ChildOf(job, GenRecommendation), s2.redis.issued + 1);
    t := ScoreHandedOn(s2, job);
    hide Enabled, Apply;
    RunsAppend(s1, [StoreScore(0)], s2, [HandOff(0, GenRecommendation, Acked), Finish(0)], t);
    assert [StoreScore(0)] + [HandOff(0, GenRecommendation, Acked), Finish(0)] == SCORE[1..];
    RunsOn(s, Pop(true), SCORE[1..], t);
    assert [Pop(true)] + SCORE[1..] == SCORE;
  }

  lemma RunsOne(s: State, step: Step)
    requires Enabled(s, step)
    ensures Runs(s, [step], Apply(s, step))
  {
    hide Enabled, Apply;
    assert Runs(Apply(s, step), [], Apply(s, step));
    RunsOn(s, step, [], Apply(s, step));
    assert [step] + [] == [step];
  }

  lemma ScoreStored(s: State, job: Job) returns (t: State)
    requires s.inflight == [Run(job, Running)] && job.kind == RuleScoring
    ensures Runs(s, [StoreScore(0)], t) && t.inflight == [Run(job, Written)] && t.redis == s.redis
    ensures job.business in t.scored
  {
    hide Runs;
    RunsOne(s, StoreScore(0));
    t := Apply(s, StoreScore(0));
  }

  lemma ScorePushed(s: State, job: Job) returns (t: State)
    requires s.inflight == [Run(job, Written)] && job.kind == RuleScoring
    ensures Runs(s, [HandOff(0, GenRecommendation, Acked)], t) && t.inflight == [Run(job, HandedOff)] && t.scored == s.scored
    ensures t.redis.main == [Stored(Prepared(ChildOf(job, GenRecommendation), s.redis.issued + 1))] + s.redis.main
  {
    hide Runs;
    RunsOne(s, HandOff(0, GenRecommendation, Acked));
    t := Apply(s, HandOff(0, GenRecommendation, Acked));
  }

  lemma ScoreFinished(s: State, job: Job) returns (t: State)
    requires s.inflight == [Run(job, HandedOff)] && job.kind == RuleScoring
    ensures Runs(s, [Finish(0)], t) && t.inflight == [] && t.scored == s.scored && t.redis == s.redis
  {
    hide Runs;
    RunsOne(s, Finish(0));
    t := Apply(s, Finish(0));
  }

  lemma ScoreHandedOn(s: State, job: Job) returns (t: State)
    requires s.inflight == [Run(job, Written)] && job.kind == RuleScoring
    ensures Runs(s, [HandOff(0, GenRecommendation, Acked), Finish(0)], t) && t.inflight == [] && t.scored == s.scored
    ensures t.redis.main == [Stored(Prepared(ChildOf(job, GenRecommendation), s.redis.issued + 1))] + s.redis.main
  {
    var u := ScorePushed(s, job);
    t := ScoreFinished(u, job);
    hide Runs;
    RunsAppend(s, [HandOff(0, GenRecommendation, Acked)], u, [Finish(0)], t);
    assert [HandOff(0, GenRecommendation, Acked)] + [Finish(0)] == [HandOff(0, GenRecommendation, Acked), Finish(0)];
  }

  /**
   One scoring row and one worker are enough for two scorings to come before both of their recommendations:
   the list is first in, first out, and children go to its back.
   */
  lemma DeliveriesOvertake(job: Job)
    requires Fresh(job) && job.kind == RuleScoring
    ensures exists s, t, first: Job, second: Job ::
              && Reachable(s) && s.pushes[0] == 2 && Runs(s, SCORE + SCORE, t)
              && t.inflight == [] && t.redis.main == [Stored(second), Stored(first)]
              && first.kind == second.kind == GenRecommendation
              && first.business == second.business == job.business
  {
    var s := PushedTwice(job);
    var older, newer := Prepared(job, 1), Prepared(job, 2);
    assert s.redis.main == [Stored(newer)] + [Stored(older)];
    var u, first := ScoreOldest(s, [Stored(newer)], older);
    var t, second := ScoreOldest(u, [Stored(first)], newer);
    RunsAppend(s, SCORE, u, SCORE, t);
    assert t.redis.main == [Stored(second), Stored(first)];
  }
}
