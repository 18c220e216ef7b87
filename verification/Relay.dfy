/** The relay's own code, run against a world in which everyone else keeps taking steps. */
module Relay {
  import opened Jobs
  import opened Pipeline
  import opened Delivery

  /******* Claiming *******/

  /** The `n` smallest members, in order. */
  function Smallest(rows: set<nat>, n: nat): seq<nat>
    decreases n
  {
    if n == 0 || rows == {} then [] else [Least(rows)] + Smallest(rows - {Least(rows)}, n - 1)
  }

  predicate IsSmallest(batch: seq<nat>, rows: set<nat>, n: nat) {
    && |batch| <= n
    && (forall row :: row in batch ==> row in rows)
    && (forall i, j :: 0 <= i < j < |batch| ==> batch[i] < batch[j])
    && (forall row :: row in rows && row !in batch ==> |batch| == n && forall other :: other in batch ==> other < row)
  }

  lemma {:induction false} SmallestIsSmallest(rows: set<nat>, n: nat)
    ensures IsSmallest(Smallest(rows, n), rows, n)
    decreases n
  {
    if n > 0 && rows != {} {
      var least := Least(rows);
      SmallestIsSmallest(rows - {least}, n - 1);
      ConsLeast(least, Smallest(rows - {least}, n - 1), rows, n);
    }
  }

  lemma ConsLeast(least: nat, rest: seq<nat>, rows: set<nat>, n: nat)
    requires n > 0 && IsLeast(least, rows) && IsSmallest(rest, rows - {least}, n - 1)
    ensures IsSmallest([least] + rest, rows, n)
  {
    var batch := [least] + rest;
    forall i, j | 0 <= i < j < |batch| ensures batch[i] < batch[j] {
      assert batch[j] == rest[j - 1] && rest[j - 1] in rest;
      assert i > 0 ==> batch[i] == rest[i - 1];
    }
    forall row | row in rows && row !in batch
      ensures |batch| == n && forall other :: other in batch ==> other < row
    {
      assert row in rows - {least} && row !in rest;
    }
  }

  predicate IsLeast(least: nat, rows: set<nat>) {
    least in rows && forall row :: row in rows ==> least <= row
  }

  function Least(rows: set<nat>): (least: nat)
    requires rows != {}
    ensures IsLeast(least, rows)
  {
    LeastExists(rows);
    var least :| least in rows && IsLeast(least, rows);
    least
  }

  lemma {:induction false} LeastExists(rows: set<nat>)
    requires rows != {}
    ensures exists least :: IsLeast(least, rows)
  {
    var x :| x in rows;
    if rows == {x} {
      assert IsLeast(x, rows);
    } else {
      LeastExists(rows - {x});
      var y :| IsLeast(y, rows - {x});
      assert forall row :: row in rows ==> row == x || row in rows - {x};
      assert IsLeast(if x < y then x else y, rows);
    }
  }

  function ClaimableRows(s: State): set<nat> {
    set row | row in s.outbox && Claimable(s, row)
  }

  /** A claim can always be made, and this is the batch it gets. */
  function NextBatch(s: State, limit: int): (batch: seq<nat>)
    ensures IsNextBatch(s, batch, limit)
  {
    SmallestIsSmallest(ClaimableRows(s), EffectiveLimit(limit));
    Smallest(ClaimableRows(s), EffectiveLimit(limit))
  }

  function Smaller(x: int, y: int): int {
    if x < y then x else y
  }

  function Members(batch: seq<nat>): set<nat> {
    set row | row in batch
  }

  lemma {:induction false} AscendingMembers(batch: seq<nat>)
    requires forall i, j :: 0 <= i < j < |batch| ==> batch[i] < batch[j]
    ensures |Members(batch)| == |batch|
  {
    if batch != [] {
      var n := |batch| - 1;
      AscendingMembers(batch[..n]);
      assert batch == batch[..n] + [batch[n]];
      assert Members(batch) == Members(batch[..n]) + {batch[n]};
      assert batch[n] !in Members(batch[..n]);
    }
  }

  lemma SubsetSize(small: set<nat>, big: set<nat>)
    requires small <= big
    ensures |small| <= |big|
    ensures |small| == |big| ==> small == big
  {
    assert big == small + (big - small);
  }

  /** A claim takes as many rows as it may and there are: up to `limit`, or up to 100 for a non-positive limit. */
  lemma BatchIsFull(s: State, batch: seq<nat>, limit: int)
    requires IsNextBatch(s, batch, limit)
    ensures |batch| == Smaller(if limit <= 0 then 100 else limit, |ClaimableRows(s)|)
  {
    var taken := Members(batch);
    AscendingMembers(batch);
    SubsetSize(taken, ClaimableRows(s));
    if |batch| < EffectiveLimit(limit) {
      forall row | row in ClaimableRows(s) ensures row in taken {}
      assert taken == ClaimableRows(s);
    }
  }

  /******* The world a relay runs in *******/

  datatype OutboxEntry = OutboxEntry(id: nat, payload: Payload)

  /** Moved: the count drain returns. Failed: an error. Blocked: waiting for a lock it holds itself. */
  datatype Drained = Moved(count: nat) | Failed | Blocked

  predicate Inserts(step: Step) {
    step.CommitBatch? || step.WriteRow?
  }

  function UnpublishedRows(s: State): set<nat> {
    set row | row in s.outbox && s.outbox[row].status == Unpublished
  }

  function Ids(entries: seq<OutboxEntry>): (ids: seq<nat>)
    ensures |ids| == |entries| && forall i :: 0 <= i < |ids| ==> ids[i] == entries[i].id
  {
    seq(|entries|, i requires 0 <= i < |entries| => entries[i].id)
  }

  /** Where a drain stops: the first job row, from `i` on, whose push is not acknowledged. */
  function StopAt(s: State, rows: seq<nat>, replies: nat -> Reply, i: nat): (k: nat)
    requires i <= |rows|
    ensures i <= k <= |rows|
    ensures forall j :: i <= j < k ==> !IsParsed(s, rows[j]) || replies(j) == Acked
    ensures k < |rows| ==> IsParsed(s, rows[k]) && replies(k) != Acked
    decreases |rows| - i
  {
    if i == |rows| || (IsParsed(s, rows[i]) && replies(i) != Acked) then i
    else StopAt(s, rows, replies, i + 1)
  }

  /** The step if it is enabled; what is not, does not happen. */
  function Next(s: State, step: Step): State {
    if Enabled(s, step) then Apply(s, step) else s
  }

  /** Everyone but `relay` takes those of the scheduled steps that are enabled when their turn comes. */
  function AfterOthers(s: State, relay: nat, others: seq<Step>): State
    decreases others
  {
    if others == [] then s
    else AfterOthers(if StepOf(others[0], relay) then s else Next(s, others[0]), relay, others[1..])
  }

  class World {
    var s: State

    constructor ()
      ensures s == INIT
    {
      s := INIT;
    }

    method Take(step: Step)
      requires Enabled(s, step)
      modifies this
      ensures s == Apply(old(s), step)
    {
      s := Apply(s, step);
    }

    /** Everyone but `relay` takes whichever of the scheduled steps are enabled. */
    method Yield(relay: nat, others: seq<Step>) returns (ghost taken: seq<Step>)
      modifies this
      ensures Runs(old(s), taken, s) && s == AfterOthers(old(s), relay, others)
      ensures forall step :: step in taken ==> step in others && !StepOf(step, relay)
    {
      taken := [];
      for i := 0 to |others|
        invariant Runs(old(s), taken, s)
        invariant AfterOthers(s, relay, others[i..]) == AfterOthers(old(s), relay, others)
        invariant forall step :: step in taken ==> step in others && !StepOf(step, relay)
      {
        assert others[i..][0] == others[i] && others[i..][1..] == others[i + 1..];
        if Enabled(s, others[i]) && !StepOf(others[i], relay) {
          ghost var before := s;
          Take(others[i]);
          RunsAppend(old(s), taken, before, [others[i]], s);
          taken := taken + [others[i]];
        }
      }
    }

    /** Locks and reads the next batch. A claim that fails at any point is rolled back, and is as if never made. */
    method Claim(relay: nat, limit: int, works: bool) returns (entries: Option<seq<OutboxEntry>>)
      requires relay !in s.claims && relay !in s.reports
      modifies this
      ensures entries.Some? <==> works
      ensures !works ==> s == old(s)
      ensures works ==> IsNextBatch(old(s), Ids(entries.value), limit)
      ensures works ==> |entries.value| == Smaller(if limit <= 0 then 100 else limit, |ClaimableRows(old(s))|)
      ensures works ==> s == Apply(old(s), BeginClaim(relay, limit, Ids(entries.value)))
      ensures works ==> forall e :: e in entries.value ==> e.id in s.outbox && s.outbox[e.id].payload == e.payload
    {
      if !works {
        return None;
      }
      var batch := NextBatch(s, limit);
      var read: seq<OutboxEntry> := [];
      for i := 0 to |batch|
        invariant |read| == i
        invariant forall j :: 0 <= j < i ==> read[j].id == batch[j]
        invariant forall e :: e in read ==> e.id in s.outbox && s.outbox[e.id].payload == e.payload
      {
        assert Claimable(s, batch[i]);
        read := read + [OutboxEntry(batch[i], s.outbox[batch[i]].payload)];
      }
      assert Ids(read) == batch;
      BatchIsFull(s, batch, limit);
      Take(BeginClaim(relay, limit, batch));
      return Some(read);
    }
  }

  /******* One drain *******/

  /**
   `relay` holds the claim `c`, with the claimed rows as they were at `start`, and owes a report only if its
   first push failed.
   */
  ghost predicate Holds(start: State, s: State, relay: nat, c: Claim) {
    && Safe(s)
    && relay in s.claims && s.claims[relay] == c
    && (if c.phase == Reporting then relay in s.reports && c.rows != [] && s.reports[relay] == c.rows[0]
        else relay !in s.reports)
    && (forall row :: row in c.rows ==> row in start.outbox && row in s.outbox && s.outbox[row] == start.outbox[row])
  }

  /** The claim of a scan that has dealt with `i` rows, and of one whose next push failed. */
  function Scanned(rows: seq<nat>, i: nat): Claim {
    Claim(rows, i, Scanning)
  }

  function Halted(rows: seq<nat>, i: nat): Claim {
    Claim(rows, i, if i > 0 then Marking else Reporting)
  }

  lemma OthersKeepHold(start: State, s: State, steps: seq<Step>, t: State, relay: nat, c: Claim)
    requires Holds(start, s, relay, c) && Runs(s, steps, t)
    requires forall step :: step in steps ==> !StepOf(step, relay)
    ensures Holds(start, t, relay, c)
  {
    RunKeeps(s, steps, t);
    RunOfOthers(s, steps, t, relay);
  }

  /** A row that needs no push, or whose push is acknowledged, moves the claim on by one; any other halts it. */
  lemma PublishKeepsHold(start: State, s: State, relay: nat, rows: seq<nat>, i: nat, reply: Reply)
    requires Holds(start, s, relay, Scanned(rows, i)) && i < |rows|
    ensures Enabled(s, Publish(relay, reply))
    ensures Holds(start, Apply(s, Publish(relay, reply)), relay,
                  if IsParsed(start, rows[i]) && reply != Acked then Halted(rows, i) else Scanned(rows, i + 1))
  {
    assert rows[i] in rows;
    StepKeeps(s, Publish(relay, reply));
    PublishProgresses(s, relay, reply);
  }

  /** What a drain leaves of the rows it claimed: the first `k` published, the others as they were but for a report. */
  ghost predicate Settled(start: State, s: State, rows: seq<nat>, k: nat, reported: bool) {
    forall i :: 0 <= i < |rows| ==>
      && rows[i] in start.outbox && rows[i] in s.outbox
      && var was := start.outbox[rows[i]];
         s.outbox[rows[i]] == was.(status := if i < k then Published else was.status,
                                   attempts := if reported && i == 0 then was.attempts + 1 else was.attempts)
  }

  /** Closing the claim publishes the rows dealt with, or none of them. */
  lemma ClosingSettles(start: State, s: State, relay: nat, c: Claim, commit: bool)
    requires Holds(start, s, relay, c)
    requires commit ==> c.next > 0 && c.phase != Reporting && (c.phase == Scanning ==> c.next == |c.rows|)
    ensures var step := if commit then CommitClaim(relay) else AbortClaim(relay);
            && Enabled(s, step)
            && Safe(Apply(s, step))
            && relay !in Apply(s, step).claims && Apply(s, step).reports == s.reports
            && Settled(start, Apply(s, step), c.rows, if commit then c.next else 0, false)
  {
    assert ClaimOk(s, s.claims[relay]);
    var step := if commit then CommitClaim(relay) else AbortClaim(relay);
    StepKeeps(s, step);
    forall j | 0 <= j < |c.rows|
      ensures c.rows[j] in start.outbox && c.rows[j] in s.outbox && (c.rows[j] in c.rows[..c.next] <==> j < c.next)
    {
      assert c.rows[j] in c.rows;
      if j < c.next { assert c.rows[..c.next][j] == c.rows[j]; }
    }
  }

  /** A report made as soon as its claim has ended counts one attempt on the first claimed row. */
  lemma ReportSettles(start: State, s: State, relay: nat, rows: seq<nat>)
    requires Holds(start, s, relay, Halted(rows, 0))
    ensures Enabled(s, AbortClaim(relay)) && Enabled(Apply(s, AbortClaim(relay)), RecordFailure(relay))
    ensures var t := Apply(Apply(s, AbortClaim(relay)), RecordFailure(relay));
            Safe(t) && relay !in t.claims && relay !in t.reports && Settled(start, t, rows, 0, true)
  {
    assert ClaimOk(s, s.claims[relay]);
    assert rows[0] in rows;
    ClosingSettles(start, s, relay, Halted(rows, 0), false);
    var t := AbortClaimEffect(s, relay);
    ReleasedNotLocked(s, t, relay, rows[0]);
    StepKeeps(t, RecordFailure(relay));
    forall i, j | 0 <= i < j < |rows| ensures rows[i] != rows[j] {}
  }

  /** Every step of the run is this relay's, or one the schedule allowed. */
  ghost predicate Scheduled(trace: seq<Step>, relay: nat, others: nat -> seq<Step>) {
    forall step :: step in trace ==> StepOf(step, relay) || exists i: nat :: step in others(i)
  }

  /** A run from `start` to here, made of this relay's steps and the schedule's. */
  ghost predicate Ran(start: State, trace: seq<Step>, s: State, relay: nat, others: nat -> seq<Step>) {
    Runs(start, trace, s) && Scheduled(trace, relay, others)
  }

  /** Takes one step at the end of a run. */
  method Continue(ghost start: State, w: World, ghost trace: seq<Step>, step: Step)
    requires Runs(start, trace, w.s) && Enabled(w.s, step)
    modifies w
    ensures w.s == Apply(old(w.s), step)
    ensures Runs(start, trace + [step], w.s)
  {
    w.Take(step);
    assert Runs(old(w.s), [step], w.s);
    RunsAppend(start, trace, old(w.s), [step], w.s);
  }

  /** One step of this relay's own. */
  method TakeOwn(ghost start: State, w: World, ghost trace: seq<Step>, step: Step, relay: nat,
              ghost others: nat -> seq<Step>)
    returns (ghost longer: seq<Step>)
    requires Ran(start, trace, w.s, relay, others) && Enabled(w.s, step) && StepOf(step, relay)
    modifies w
    ensures w.s == Apply(old(w.s), step) && Ran(start, longer, w.s, relay, others)
  {
    hide Enabled, Apply;
    Continue(start, w, trace, step);
    longer := trace + [step];
  }

  /** Others move while this relay holds its claim. */
  method LetOthersMove(w: World, relay: nat, now: seq<Step>, ghost others: nat -> seq<Step>, ghost k: nat,
                       ghost start: State, ghost c: Claim, ghost trace: seq<Step>)
    returns (ghost longer: seq<Step>)
    requires Holds(start, w.s, relay, c) && now == others(k)
    requires Ran(start, trace, w.s, relay, others)
    modifies w
    ensures Ran(start, longer, w.s, relay, others)
    ensures Holds(start, w.s, relay, c) && w.s == AfterOthers(old(w.s), relay, now)
  {
    hide Holds;
    ghost var taken := w.Yield(relay, now);
    OthersKeepHold(start, old(w.s), taken, w.s, relay, c);
    RunsAppend(start, trace, old(w.s), taken, w.s);
    longer := trace + taken;
  }

  /** What happens to a relay whose first push failed: it waits on; its context is cancelled; or the server ends its claim. */
  datatype Fate = Waits | Cancelled | ClaimEnded

  /**
   All a drain meets: whether the claim works, what Redis answers to the push of each claimed row, what the
   database answers to the commit, the fate of a failed first push, and who else moves at each point.
   */
  datatype Round = Round(claims: bool, replies: nat -> Reply, commit: Reply, fate: Fate, others: nat -> seq<Step>)

  /** From row `i` on, others move before each push, up to the first job row whose push is not acknowledged. */
  ghost function AfterScan(start: State, s: State, relay: nat, rows: seq<nat>, e: Round, i: nat): State
    requires i <= |rows|
    decreases |rows| - i
  {
    if i == |rows| then s
    else
      var t := Next(AfterOthers(s, relay, e.others(i)), Publish(relay, e.replies(i)));
      if IsParsed(start, rows[i]) && e.replies(i) != Acked then t else AfterScan(start, t, relay, rows, e, i + 1)
  }

  /** A failed first push: others move, and then the wait goes on, is given up, or ends with the claim. */
  ghost function AfterReport(s: State, relay: nat, e: Round): State {
    var t := AfterOthers(s, relay, e.others(1));
    match e.fate
    case Waits => t
    case Cancelled => Next(Next(t, GiveUpReport(relay)), AbortClaim(relay))
    case ClaimEnded => Next(Next(t, AbortClaim(relay)), RecordFailure(relay))
  }

  ghost function AfterDrain(s: State, relay: nat, limit: int, rows: seq<nat>, e: Round): State {
    if !e.claims then s
    else
      var claimed := Next(s, BeginClaim(relay, limit, rows));
      var scanned := AfterScan(s, claimed, relay, rows, e, 0);
      var k := StopAt(s, rows, e.replies, 0);
      if rows == [] then Next(AfterOthers(claimed, relay, e.others(0)), AbortClaim(relay))
      else if k == 0 then AfterReport(scanned, relay, e)
      else Next(AfterOthers(scanned, relay, e.others(k + 1)),
                if e.commit == Refused then AbortClaim(relay) else CommitClaim(relay))
  }

  /** Works through the claimed rows up to the first push that fails; returns the ids dealt with. */
  method Scan(w: World, relay: nat, entries: seq<OutboxEntry>, e: Round,
              ghost start: State, ghost rows: seq<nat>, ghost trace: seq<Step>)
    returns (ids: seq<nat>, ok: bool, ghost longer: seq<Step>)
    requires rows == Ids(entries) && Holds(start, w.s, relay, Scanned(rows, 0))
    requires forall i :: 0 <= i < |entries| ==> (IsParsed(start, rows[i]) <==> entries[i].payload.Parsed?)
    requires Ran(start, trace, w.s, relay, e.others)
    modifies w
    ensures Ran(start, longer, w.s, relay, e.others)
    ensures |ids| == StopAt(start, rows, e.replies, 0) && ids == rows[..|ids|]
    ensures ok <==> |ids| == |rows|
    ensures Holds(start, w.s, relay, if ok then Scanned(rows, |ids|) else Halted(rows, |ids|))
    ensures w.s == AfterScan(start, old(w.s), relay, rows, e, 0)
  {
    hide Holds, Ran, Enabled, Apply, StopAt, AfterOthers;
    ids, ok, longer := [], true, trace;
    while |ids| < |entries| && ok
      invariant |ids| <= |entries| && ids == rows[..|ids|]
      invariant Ran(start, longer, w.s, relay, e.others)
      invariant !ok ==> |ids| < |rows|
      invariant StopAt(start, rows, e.replies, 0) == if ok then StopAt(start, rows, e.replies, |ids|) else |ids|
      invariant Holds(start, w.s, relay, if ok then Scanned(rows, |ids|) else Halted(rows, |ids|))
      invariant AfterScan(start, old(w.s), relay, rows, e, 0) == if ok then AfterScan(start, w.s, relay, rows, e, |ids|) else w.s
      decreases |entries| - |ids|, ok
    {
      var entry := entries[|ids|];
      longer := LetOthersMove(w, relay, e.others(|ids|), e.others, |ids|, start, Scanned(rows, |ids|), longer);
      PublishKeepsHold(start, w.s, relay, rows, |ids|, e.replies(|ids|));
      longer := TakeOwn(start, w, longer, Publish(relay, e.replies(|ids|)), relay, e.others);
      ok := entry.payload.Unparseable? || e.replies(|ids|) == Acked;
      if ok {
        ids := ids + [entry.id];
      }
    }
  }

  /** The wait for the failure report, which is over only if the context is cancelled or the server ends the claim. */
  method Report(w: World, relay: nat, e: Round, ghost start: State, ghost rows: seq<nat>, ghost trace: seq<Step>)
    returns (ghost longer: seq<Step>)
    requires Holds(start, w.s, relay, Halted(rows, 0)) && Ran(start, trace, w.s, relay, e.others)
    modifies w
    ensures Safe(w.s) && Ran(start, longer, w.s, relay, e.others)
    ensures e.fate == Waits ==> Holds(start, w.s, relay, Halted(rows, 0))
    ensures e.fate != Waits ==> relay !in w.s.claims && relay !in w.s.reports
    ensures Settled(start, w.s, rows, 0, e.fate == ClaimEnded)
    ensures w.s == AfterReport(old(w.s), relay, e)
  {
    longer := LetOthersMove(w, relay, e.others(1), e.others, 1, start, Halted(rows, 0), trace);
    match e.fate {
      case Waits =>
        forall i | 0 <= i < |rows| ensures rows[i] in rows {}
      case Cancelled =>
        CancelledSettles(start, w.s, relay, rows);
        longer := TakeOwn(start, w, longer, GiveUpReport(relay), relay, e.others);
        longer := TakeOwn(start, w, longer, AbortClaim(relay), relay, e.others);
      case ClaimEnded =>
        ReportSettles(start, w.s, relay, rows);
        longer := TakeOwn(start, w, longer, AbortClaim(relay), relay, e.others);
        longer := TakeOwn(start, w, longer, RecordFailure(relay), relay, e.others);
    }
  }

  lemma CancelledSettles(start: State, s: State, relay: nat, rows: seq<nat>)
    requires Holds(start, s, relay, Halted(rows, 0))
    ensures Enabled(s, GiveUpReport(relay)) && Enabled(Apply(s, GiveUpReport(relay)), AbortClaim(relay))
    ensures var t := Apply(Apply(s, GiveUpReport(relay)), AbortClaim(relay));
            Safe(t) && relay !in t.claims && relay !in t.reports && Settled(start, t, rows, 0, false)
  {
    assert ClaimOk(s, s.claims[relay]);
    var t := Apply(s, GiveUpReport(relay));
    StepKeeps(s, GiveUpReport(relay));
    StepKeeps(t, AbortClaim(relay));
    forall i | 0 <= i < |rows| ensures rows[i] in rows {}
  }

  /** Opens the claim and reads its rows. */
  method OpenClaim(w: World, relay: nat, limit: int, e: Round)
    returns (entries: Option<seq<OutboxEntry>>, ghost rows: seq<nat>, ghost trace: seq<Step>)
    requires Safe(w.s) && relay !in w.s.claims && relay !in w.s.reports
    modifies w
    ensures entries.Some? <==> e.claims
    ensures w.s == if e.claims then Next(old(w.s), BeginClaim(relay, limit, rows)) else old(w.s)
    ensures Ran(old(w.s), trace, w.s, relay, e.others)
    ensures e.claims ==> rows == Ids(entries.value) && IsNextBatch(old(w.s), rows, limit)
    ensures e.claims ==> |rows| == Smaller(if limit <= 0 then 100 else limit, |ClaimableRows(old(w.s))|)
    ensures e.claims ==> Holds(old(w.s), w.s, relay, Scanned(rows, 0))
    ensures e.claims ==> forall i :: 0 <= i < |rows| ==> (IsParsed(old(w.s), rows[i]) <==> entries.value[i].payload.Parsed?)
  {
    rows, trace := [], [];
    entries := w.Claim(relay, limit, e.claims);
    if entries.None? {
      return;
    }
    rows := Ids(entries.value);
    trace := [BeginClaim(relay, limit, rows)];
    StepKeeps(old(w.s), BeginClaim(relay, limit, rows));
    assert forall row :: row in rows ==> Claimable(old(w.s), row);
    forall i | 0 <= i < |rows| ensures IsParsed(old(w.s), rows[i]) <==> entries.value[i].payload.Parsed? {
      assert entries.value[i] in entries.value && rows[i] in rows;
    }
  }

  /** The claim transaction ends, committed or rolled back, after others have had one more turn. */
  method CloseClaim(w: World, relay: nat, commit: bool, e: Round, k: nat, ghost start: State, ghost c: Claim,
                    ghost trace: seq<Step>)
    returns (ghost longer: seq<Step>)
    requires Holds(start, w.s, relay, c) && c.phase != Reporting
    requires commit ==> c.next > 0 && (c.phase == Scanning ==> c.next == |c.rows|)
    requires Ran(start, trace, w.s, relay, e.others)
    modifies w
    ensures Ran(start, longer, w.s, relay, e.others)
    ensures Safe(w.s) && relay !in w.s.claims && relay !in w.s.reports
    ensures Settled(start, w.s, c.rows, if commit then c.next else 0, false)
    ensures w.s == Next(AfterOthers(old(w.s), relay, e.others(k)), if commit then CommitClaim(relay) else AbortClaim(relay))
  {
    longer := LetOthersMove(w, relay, e.others(k), e.others, k, start, c, trace);
    ClosingSettles(start, w.s, relay, c, commit);
    longer := TakeOwn(start, w, longer, if commit then CommitClaim(relay) else AbortClaim(relay), relay, e.others);
  }

  /** One drain, with everyone else's steps before each push, before the commit and during the wait. */
  method Drain(w: World, relay: nat, limit: int, e: Round)
    returns (r: Drained, ghost rows: seq<nat>, ghost trace: seq<Step>)
    requires Safe(w.s) && relay !in w.s.claims && relay !in w.s.reports
    modifies w
    ensures Safe(w.s) && Ran(old(w.s), trace, w.s, relay, e.others)
    ensures !e.claims ==> r == Failed && w.s == old(w.s)
    ensures w.s == AfterDrain(old(w.s), relay, limit, rows, e)
    ensures r != Blocked ==> relay !in w.s.claims && relay !in w.s.reports
    ensures e.claims ==>
              && IsNextBatch(old(w.s), rows, limit)
              && |rows| == Smaller(if limit <= 0 then 100 else limit, |ClaimableRows(old(w.s))|)
              && var k := StopAt(old(w.s), rows, e.replies, 0);
                 var failedFirst := k == 0 && rows != [];
                 && (r == Blocked <==> failedFirst && e.fate == Waits)
                 && (r == Blocked ==> Holds(old(w.s), w.s, relay, Halted(rows, 0)))
                 && (r.Moved? <==> rows == [] || (failedFirst && e.fate != Waits) || (k > 0 && e.commit == Acked))
                 && (r.Moved? ==> r.count == if failedFirst then 0 else |rows|)
                 && Settled(old(w.s), w.s, rows, if e.commit == Refused then 0 else k, failedFirst && e.fate == ClaimEnded)
  {
    hide Holds, Ran, Enabled, Apply, Safe, IsNextBatch, StopAt, Settled, ClaimableRows, Smaller, Next, AfterOthers, AfterReport, AfterScan;
    ghost var start := w.s;
    var claimed;
    claimed, rows, trace := OpenClaim(w, relay, limit, e);
    if claimed.None? {
      return Failed, rows, trace;
    }
    var entries := claimed.value;
    if |entries| == 0 {
      trace := CloseClaim(w, relay, false, e, 0, start, Scanned(rows, 0), trace);
      return Moved(0), rows, trace;
    }
    var ids, ok;
    ids, ok, trace := Scan(w, relay, entries, e, start, rows, trace);
    if |ids| == 0 {
      trace := Report(w, relay, e, start, rows, trace);
      r := if e.fate == Waits then Blocked else Moved(0);
      return;
    }
    trace := CloseClaim(w, relay, e.commit != Refused, e, |ids| + 1, start,
                        if ok then Scanned(rows, |ids|) else Halted(rows, |ids|), trace);
    r := if e.commit == Acked then Moved(|entries|) else Failed;
  }

  /******* One tick *******/

  /** Without new rows, rows only ever leave the unpublished set. */
  lemma UnpublishedOnlyShrinks(s: State, step: Step)
    requires Enabled(s, step) && !Inserts(step)
    ensures UnpublishedRows(Apply(s, step)) <= UnpublishedRows(s)
  {
  }

  lemma {:induction false} UnpublishedShrinks(s: State, steps: seq<Step>, t: State)
    requires Runs(s, steps, t)
    requires forall step :: step in steps ==> !Inserts(step)
    ensures UnpublishedRows(t) <= UnpublishedRows(s)
    decreases steps
  {
    if steps != [] {
      UnpublishedOnlyShrinks(s, steps[0]);
      UnpublishedShrinks(Apply(s, steps[0]), steps[1..], t);
    }
  }

  lemma NoneInserts(start: State, s: State, relay: nat, trace: seq<Step>, others: nat -> seq<Step>)
    requires Ran(start, trace, s, relay, others)
    requires forall i: nat, step :: step in others(i) ==> !Inserts(step)
    ensures UnpublishedRows(s) <= UnpublishedRows(start)
  {
    forall step | step in trace ensures !Inserts(step) {
      if !StepOf(step, relay) {
        var i: nat :| step in others(i);
      }
    }
    UnpublishedShrinks(start, trace, s);
  }

  /** A drain that published something made the unpublished set strictly smaller. */
  lemma FullBatchIsProgress(start: State, s: State, relay: nat, trace: seq<Step>, others: nat -> seq<Step>,
                            rows: seq<nat>, k: nat, limit: int)
    requires Ran(start, trace, s, relay, others)
    requires forall i: nat, step :: step in others(i) ==> !Inserts(step)
    requires IsNextBatch(start, rows, limit) && rows != [] && k > 0 && Settled(start, s, rows, k, false)
    ensures UnpublishedRows(s) < UnpublishedRows(start)
  {
    NoneInserts(start, s, relay, trace, others);
    assert rows[0] in rows && Claimable(start, rows[0]);
    assert rows[0] in UnpublishedRows(start) && rows[0] !in UnpublishedRows(s);
  }

  /** Every push is acknowledged. */
  ghost predicate PushesLand(rounds: nat -> Round) {
    forall n: nat, i: nat :: rounds(n).replies(i) == Acked
  }

  /** The database does its part: every claim works, every commit is acknowledged. */
  ghost predicate DatabaseWorks(rounds: nat -> Round) {
    forall n: nat :: rounds(n).claims && rounds(n).commit == Acked
  }

  ghost predicate Alone(rounds: nat -> Round) {
    forall n: nat, i: nat :: rounds(n).others(i) == []
  }

  lemma AloneStep(s: State, step: Step, relay: nat)
    requires Enabled(s, step) && StepOf(step, relay) && s.claims.Keys <= {relay}
    ensures Apply(s, step).claims.Keys <= {relay}
  {
    match step
    case Publish(_, reply) => PublishProgresses(s, relay, reply);
    case _ =>
  }

  lemma {:induction false} AloneRun(s: State, steps: seq<Step>, t: State, relay: nat)
    requires Runs(s, steps, t) && forall step :: step in steps ==> StepOf(step, relay)
    requires s.claims.Keys <= {relay}
    ensures t.claims.Keys <= {relay}
    decreases steps
  {
    if steps != [] {
      AloneStep(s, steps[0], relay);
      AloneRun(Apply(s, steps[0]), steps[1..], t, relay);
    }
  }

  /** A drain nobody disturbed leaves no claim open; if it fell short of a full batch, no row is left either. */
  lemma ShortBatchEmpties(start: State, s: State, relay: nat, trace: seq<Step>, others: nat -> seq<Step>,
                          rows: seq<nat>, limit: int)
    requires Ran(start, trace, s, relay, others)
    requires forall i: nat :: others(i) == []
    requires start.claims == map[] && relay !in s.claims
    requires limit >= 1 && IsNextBatch(start, rows, limit) && Settled(start, s, rows, |rows|, false)
    ensures s.claims == map[]
    ensures |rows| < limit ==> UnpublishedRows(s) == {}
  {
    AloneRun(start, trace, s, relay);
    NoneInserts(start, s, relay, trace, others);
    if |rows| < limit {
      forall row | row in UnpublishedRows(s) ensures false {
        assert row in UnpublishedRows(start) && Claimable(start, row);
      }
    }
  }

  /** One drain leads from `s` to `t`; `full` says that its batch was as large as it may be. */
  ghost predicate DrainLeads(s: State, relay: nat, limit: int, e: Round, full: bool, t: State) {
    exists rows :: (e.claims ==> IsNextBatch(s, rows, limit)) && t == AfterDrain(s, relay, limit, rows, e)
                   && (full ==> e.claims && |rows| == limit)
  }

  ghost predicate AllAcked(e: Round) {
    forall i: nat :: e.replies(i) == Acked
  }

  ghost predicate NobodyInserts(e: Round) {
    forall i: nat, step :: step in e.others(i) ==> !Inserts(step)
  }

  /** Redis and the database serve this drain, and it is alone. */
  ghost predicate Undisturbed(e: Round) {
    e.claims && e.commit == Acked && AllAcked(e) && forall i: nat :: e.others(i) == []
  }

  lemma EachRound(rounds: nat -> Round, n: nat)
    ensures PushesLand(rounds) ==> AllAcked(rounds(n))
    ensures DatabaseWorks(rounds) ==> rounds(n).claims && rounds(n).commit == Acked
    ensures PushesLand(rounds) && DatabaseWorks(rounds) && Alone(rounds) ==> Undisturbed(rounds(n))
  {
  }

  /** One drain of a tick, at the end of a run. */
  method DrainOnce(w: World, relay: nat, limit: int, e: Round, ghost start: State, ghost trace: seq<Step>)
    returns (last: Drained, ghost longer: seq<Step>)
    requires Safe(w.s) && relay !in w.s.claims && relay !in w.s.reports && Runs(start, trace, w.s)
    requires limit >= 1 && NobodyInserts(e)
    modifies w
    ensures Safe(w.s) && Runs(start, longer, w.s)
    ensures last == Blocked ==> relay in w.s.claims && w.s.claims[relay].phase == Reporting && relay in w.s.reports
    ensures last != Blocked ==> relay !in w.s.claims && relay !in w.s.reports
    ensures DrainLeads(old(w.s), relay, limit, e, last.Moved? && last.count >= limit, w.s)
    ensures AllAcked(e) ==> last != Blocked
    ensures e.claims && e.commit == Acked ==> last != Failed
    ensures last.Moved? && last.count >= limit ==> UnpublishedRows(w.s) < UnpublishedRows(old(w.s))
    ensures Undisturbed(e) && old(w.s).claims == map[] ==>
              w.s.claims == map[] && last.Moved? && (last.count < limit ==> UnpublishedRows(w.s) == {})
  {
    hide Enabled, Apply, Safe, IsNextBatch, AfterDrain;
    ghost var before := w.s;
    ghost var rows, steps;
    last, rows, steps := Drain(w, relay, limit, e);
    RunsAppend(start, trace, before, steps, w.s);
    longer := trace + steps;
    assert DrainLeads(before, relay, limit, e, last.Moved? && last.count >= limit, w.s);
    if Undisturbed(e) && before.claims == map[] {
      ShortBatchEmpties(before, w.s, relay, steps, e.others, rows, limit);
    }
    if last.Moved? && last.count >= limit {
      FullBatchIsProgress(before, w.s, relay, steps, e.others, rows, StopAt(before, rows, e.replies, 0), limit);
    }
  }

  /** These states lead from each to the next by the drains of the rounds in turn, each with a full batch. */
  ghost predicate FullDrains(states: seq<State>, relay: nat, limit: int, rounds: nat -> Round) {
    states != [] && forall i :: 0 <= i < |states| - 1 ==> DrainLeads(states[i], relay, limit, rounds(i), true, states[i + 1])
  }

  lemma OneMoreDrain(states: seq<State>, relay: nat, limit: int, rounds: nat -> Round, t: State)
    requires FullDrains(states, relay, limit, rounds)
    requires DrainLeads(states[|states| - 1], relay, limit, rounds(|states| - 1), true, t)
    ensures FullDrains(states + [t], relay, limit, rounds)
  {
    hide DrainLeads;
  }

  /**
   One tick of the relay: drain until a batch falls short. It ends, or blocks reporting a first push that
   failed, whatever Redis, the database and the others do, as long as nobody writes new rows meanwhile. With
   every push acknowledged it does not block, and alone with a working database it publishes every row.
   `states` tells the state before each drain; all drains but the last have a full batch.
   */
  method Tick(w: World, relay: nat, batchSize: int, rounds: nat -> Round)
    returns (last: Drained, ghost states: seq<State>)
    requires Safe(w.s) && relay !in w.s.claims && relay !in w.s.reports
    requires batchSize >= 1
    requires forall n: nat :: NobodyInserts(rounds(n))
    modifies w
    ensures Safe(w.s) && exists trace :: Runs(old(w.s), trace, w.s)
    ensures FullDrains(states, relay, batchSize, rounds) && states[0] == old(w.s)
    ensures DrainLeads(states[|states| - 1], relay, batchSize, rounds(|states| - 1), false, w.s)
    ensures last == Blocked ==> relay in w.s.claims && w.s.claims[relay].phase == Reporting && relay in w.s.reports
    ensures last != Blocked ==> relay !in w.s.claims && relay !in w.s.reports
    ensures last.Moved? ==> last.count < batchSize
    ensures PushesLand(rounds) ==> last != Blocked
    ensures DatabaseWorks(rounds) ==> last != Failed
    ensures PushesLand(rounds) && DatabaseWorks(rounds) && Alone(rounds) && old(w.s).claims == map[] ==>
              last.Moved? && UnpublishedRows(w.s) == {}
  {
    states := [w.s];
    assert Runs(w.s, [], w.s) && FullDrains(states, relay, batchSize, rounds);
    hide Enabled, Apply, Safe, DrainLeads, Runs, UnpublishedRows, FullDrains, NobodyInserts, AllAcked, Undisturbed, Alone, PushesLand, DatabaseWorks;
    ghost var trace: seq<Step> := [];
    var round := 0;
    while true
      invariant Safe(w.s) && relay !in w.s.claims && relay !in w.s.reports
      invariant Runs(old(w.s), trace, w.s)
      invariant Alone(rounds) && PushesLand(rounds) && DatabaseWorks(rounds) && old(w.s).claims == map[] ==> w.s.claims == map[]
      invariant |states| == round + 1 && states[0] == old(w.s) && states[round] == w.s
      invariant FullDrains(states, relay, batchSize, rounds)
      decreases UnpublishedRows(w.s)
    {
      EachRound(rounds, round);
      last, trace := DrainOnce(w, relay, batchSize, rounds(round), old(w.s), trace);
      if !last.Moved? || last.count < batchSize {
        return;
      }
      OneMoreDrain(states, relay, batchSize, rounds, w.s);
      states := states + [w.s];
      round := round + 1;
    }
  }
}
