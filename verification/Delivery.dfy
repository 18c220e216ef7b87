/** Claims never overlap, published rows reached Redis, and every push is accounted for. */
module Delivery {
  import opened Jobs
  import opened Pipeline

  ghost predicate ClaimOk(s: State, c: Claim) {
    && c.next <= |c.rows|
    && (forall i, j :: 0 <= i < j < |c.rows| ==> c.rows[i] < c.rows[j])
    && (forall row :: row in c.rows ==> row in s.outbox && s.outbox[row].status == Unpublished)
    && (c.phase == Reporting ==> c.next == 0 && c.rows != [] && IsParsed(s, c.rows[0]))
    && (c.phase == Marking ==> c.next > 0)
  }

  /** No row is locked by two open claims, and a locked row is unpublished. */
  ghost predicate LockInv(s: State) {
    && (forall a :: a in s.claims ==> ClaimOk(s, s.claims[a]))
    && (forall a, b, row ::
          a in s.claims && b in s.claims && row in s.claims[a].rows && row in s.claims[b].rows ==> a == b)
  }

  /** An open claim has pushed this row. */
  ghost predicate HeldPushed(s: State, row: nat) {
    exists a :: a in s.claims && s.claims[a].next <= |s.claims[a].rows| && row in PushedBy(s, s.claims[a])
  }

  predicate Delivered(s: State, row: nat) {
    IsParsed(s, row) && s.outbox[row].status != Unpublished
  }

  ghost predicate AccountedFor(s: State, row: nat) {
    s.pushes[row] ==
      (if Delivered(s, row) then 1 else 0) + s.aborted[row] + s.unacked[row]
      + (if HeldPushed(s, row) then 1 else 0)
  }

  ghost predicate PushInv(s: State) {
    forall row :: AccountedFor(s, row)
  }

  lemma OtherStepsKeep(s: State, t: State)
    requires LockInv(s) && PushInv(s) && SameRelaySide(s, t.(reports := s.reports))
    ensures LockInv(t) && PushInv(t)
  {
    forall row ensures AccountedFor(t, row) {
      assert AccountedFor(s, row);
      SameHeld(s, t, row);
    }
  }

  lemma SameHeld(s: State, t: State, row: nat)
    requires t.claims == s.claims
    requires IsParsed(t, row) == IsParsed(s, row)
    ensures HeldPushed(t, row) == HeldPushed(s, row)
  {
    forall a | a in s.claims && s.claims[a].next <= |s.claims[a].rows|
      ensures row in PushedBy(t, t.claims[a]) <==> row in PushedBy(s, s.claims[a])
    {
    }
  }

  lemma NewRowsKeep(s: State, t: State)
    requires LockInv(s) && PushInv(s)
    requires SameRelaySide(s, t.(outbox := s.outbox))
    requires s.outbox.Keys <= t.outbox.Keys
    requires forall row :: row in s.outbox ==> t.outbox[row] == s.outbox[row]
    requires forall row :: row in t.outbox && row !in s.outbox ==> t.outbox[row].status == Unpublished
    ensures LockInv(t) && PushInv(t)
  {
    forall row ensures AccountedFor(t, row) {
      assert AccountedFor(s, row);
      if row in s.outbox {
        SameHeld(s, t, row);
      } else {
        forall a | a in t.claims ensures row !in t.claims[a].rows {
          assert ClaimOk(s, s.claims[a]);
        }
      }
    }
  }

  lemma BeginClaimKeepsLocks(s: State, relay: nat, limit: int, batch: seq<nat>)
    requires LockInv(s) && Enabled(s, BeginClaim(relay, limit, batch))
    ensures LockInv(Apply(s, BeginClaim(relay, limit, batch)))
  {
    var t := s.(claims := s.claims[relay := Claim(batch, 0, Scanning)]);
    forall a | a in t.claims ensures ClaimOk(t, t.claims[a]) {
      if a != relay { assert ClaimOk(s, s.claims[a]); }
    }
    forall a, row | a in s.claims && row in s.claims[a].rows && row in batch ensures false {
      assert Claimable(s, row);
      assert Locked(s, row);
    }
  }

  /** A claim that has dealt with no row holds nothing as pushed. */
  lemma NewClaimHoldsNothing(s: State, t: State, relay: nat, batch: seq<nat>, row: nat)
    requires relay !in s.claims && t == s.(claims := s.claims[relay := Claim(batch, 0, Scanning)])
    ensures HeldPushed(t, row) == HeldPushed(s, row)
  {
    assert PushedBy(t, t.claims[relay]) == {};
    forall a | a in s.claims && s.claims[a].next <= |s.claims[a].rows|
      ensures PushedBy(t, t.claims[a]) == PushedBy(s, s.claims[a])
    {
    }
    if HeldPushed(s, row) {
      var a :| a in s.claims && s.claims[a].next <= |s.claims[a].rows| && row in PushedBy(s, s.claims[a]);
      assert row in PushedBy(t, t.claims[a]);
    }
  }

  lemma BeginClaimKeeps(s: State, relay: nat, limit: int, batch: seq<nat>)
    requires LockInv(s) && PushInv(s)
    requires Enabled(s, BeginClaim(relay, limit, batch))
    ensures LockInv(Apply(s, BeginClaim(relay, limit, batch)))
    ensures PushInv(Apply(s, BeginClaim(relay, limit, batch)))
  {
    BeginClaimKeepsLocks(s, relay, limit, batch);
    var t := s.(claims := s.claims[relay := Claim(batch, 0, Scanning)]);
    forall row ensures AccountedFor(t, row) {
      assert AccountedFor(s, row);
      NewClaimHoldsNothing(s, t, relay, batch, row);
    }
  }

  /** Only `relay`'s own claim says whether a row it locks is held as pushed. */
  lemma HeldByOwner(s: State, relay: nat, row: nat)
    requires LockInv(s) && relay in s.claims && row in s.claims[relay].rows
    ensures HeldPushed(s, row) <==> row in PushedBy(s, s.claims[relay])
  {
    if HeldPushed(s, row) {
      var a :| a in s.claims && s.claims[a].next <= |s.claims[a].rows| && row in PushedBy(s, s.claims[a]);
      assert row in s.claims[a].rows;
      assert a == relay;
    }
  }

  /** A change to one claim's progress leaves every other row's status as pushed alone. */
  lemma HeldElsewhere(s: State, t: State, relay: nat, row: nat)
    requires LockInv(s) && relay in s.claims && row !in s.claims[relay].rows
    requires t.claims.Keys - {relay} == s.claims.Keys - {relay}
    requires forall a :: a in s.claims && a != relay ==> a in t.claims && t.claims[a] == s.claims[a]
    requires relay in t.claims ==> t.claims[relay].rows == s.claims[relay].rows
    requires IsParsed(s, row) == IsParsed(t, row)
    ensures HeldPushed(s, row) == HeldPushed(t, row)
  {
    forall a | a in t.claims && a != relay
      ensures a in s.claims
    {
      assert a in s.claims.Keys - {relay};
    }
    HeldByAnother(s, t, relay, row);
    HeldByAnother(t, s, relay, row);
  }

  /** A row some other claim holds as pushed is still held wherever that claim is unchanged. */
  lemma HeldByAnother(s: State, t: State, relay: nat, row: nat)
    requires relay in s.claims ==> row !in s.claims[relay].rows
    requires forall a :: a in s.claims && a != relay ==> a in t.claims && t.claims[a] == s.claims[a]
    requires IsParsed(s, row) == IsParsed(t, row)
    ensures HeldPushed(s, row) ==> HeldPushed(t, row)
  {
    if HeldPushed(s, row) {
      var a :| a in s.claims && s.claims[a].next <= |s.claims[a].rows| && row in PushedBy(s, s.claims[a]);
      assert row in s.claims[a].rows;
      assert row in PushedBy(t, t.claims[a]);
    }
  }

  /** What publishing one row does to claims and push counts: it is pushed and passed, passed, or stays put. */
  ghost predicate Progress(s: State, t: State, relay: nat) {
    && relay in s.claims && relay in t.claims
    && var c, c' := s.claims[relay], t.claims[relay];
    && c.next < |c.rows|
    && var row := c.rows[c.next];
    && c.phase == Scanning
    && t.outbox == s.outbox && t.aborted == s.aborted
    && t.claims == s.claims[relay := c']
    && c'.rows == c.rows
    && (|| (c' == c.(next := c.next + 1) && t.unacked == s.unacked
            && t.pushes == if IsParsed(s, row) then s.pushes + multiset{row} else s.pushes)
        || (c' == c.(phase := if c.next > 0 then Marking else Reporting) && IsParsed(s, row)
            && ((t.pushes == s.pushes && t.unacked == s.unacked)
                || (t.pushes == s.pushes + multiset{row} && t.unacked == s.unacked + multiset{row}))))
  }

  lemma PublishProgresses(s: State, relay: nat, reply: Reply)
    requires Enabled(s, Publish(relay, reply))
    ensures Progress(s, PublishEffect(s, relay, reply), relay)
  {
  }

  lemma ProgressKeepsLocks(s: State, t: State, relay: nat)
    requires LockInv(s) && Progress(s, t, relay)
    ensures LockInv(t)
  {
    forall a | a in t.claims ensures ClaimOk(t, t.claims[a]) {
      assert ClaimOk(s, s.claims[a]);
    }
  }

  lemma ProgressPushes(s: State, t: State, relay: nat, row: nat)
    requires LockInv(s) && Progress(s, t, relay)
    ensures s.claims[relay].next <= |s.claims[relay].rows| && t.claims[relay].next <= |t.claims[relay].rows|
    ensures s.claims[relay].rows[s.claims[relay].next] !in PushedBy(s, s.claims[relay])
    ensures t.claims[relay].next == s.claims[relay].next ==> PushedBy(t, t.claims[relay]) == PushedBy(s, s.claims[relay])
    ensures t.claims[relay].next != s.claims[relay].next ==>
              (row in PushedBy(t, t.claims[relay]) <==>
               row in PushedBy(s, s.claims[relay]) || (row == s.claims[relay].rows[s.claims[relay].next] && IsParsed(s, row)))
  {
    var c := s.claims[relay];
    assert ClaimOk(s, c);
    assert c.rows[..c.next + 1] == c.rows[..c.next] + [c.rows[c.next]];
    NotYet(c);
  }

  /** Only the row being published changes its account, and by exactly its push. */
  lemma ProgressAccounts(s: State, t: State, relay: nat, row: nat)
    requires LockInv(s) && LockInv(t) && PushInv(s) && Progress(s, t, relay)
    ensures AccountedFor(t, row)
  {
    assert AccountedFor(s, row);
    if row in s.claims[relay].rows {
      HeldByOwner(s, relay, row);
      HeldByOwner(t, relay, row);
      ProgressPushes(s, t, relay, row);
    } else {
      HeldElsewhere(s, t, relay, row);
    }
  }

  lemma NotYet(c: Claim)
    requires c.next < |c.rows|
    requires forall i, j :: 0 <= i < j < |c.rows| ==> c.rows[i] < c.rows[j]
    ensures c.rows[c.next] !in c.rows[..c.next]
  {
  }

  lemma CommitClaimKeeps(s: State, relay: nat)
    requires LockInv(s) && PushInv(s)
    requires Enabled(s, CommitClaim(relay))
    ensures LockInv(Apply(s, CommitClaim(relay)))
    ensures PushInv(Apply(s, CommitClaim(relay)))
  {
    var t := CommitClaimEffect(s, relay);
    var c := s.claims[relay];
    assert ClaimOk(s, c);
    forall a | a in t.claims ensures ClaimOk(t, t.claims[a]) {
      assert ClaimOk(s, s.claims[a]);
    }
    forall row ensures AccountedFor(t, row) {
      assert AccountedFor(s, row);
      if row in c.rows {
        HeldByOwner(s, relay, row);
        ReleasedNotHeld(s, t, relay, row);
      } else {
        HeldElsewhere(s, t, relay, row);
      }
    }
  }

  /** Once its claim is closed, a row is held by nobody. */
  lemma ReleasedNotHeld(s: State, t: State, relay: nat, row: nat)
    requires LockInv(s) && relay in s.claims && row in s.claims[relay].rows
    requires t.claims == s.claims - {relay}
    ensures !HeldPushed(t, row)
  {
    forall a | a in t.claims ensures row !in t.claims[a].rows {
      assert a in s.claims;
    }
  }

  lemma AbortClaimKeeps(s: State, relay: nat)
    requires LockInv(s) && PushInv(s)
    requires Enabled(s, AbortClaim(relay))
    ensures LockInv(Apply(s, AbortClaim(relay)))
    ensures PushInv(Apply(s, AbortClaim(relay)))
  {
    var t := AbortClaimEffect(s, relay);
    var c := s.claims[relay];
    assert ClaimOk(s, c);
    forall a | a in t.claims ensures ClaimOk(t, t.claims[a]) {
      assert ClaimOk(s, s.claims[a]);
    }
    forall row ensures AccountedFor(t, row) {
      assert AccountedFor(s, row);
      if row in c.rows {
        HeldByOwner(s, relay, row);
        ReleasedNotHeld(s, t, relay, row);
      } else {
        HeldElsewhere(s, t, relay, row);
      }
    }
  }

  /** Purging takes published rows out, and no others; nothing about the rest changes. */
  lemma PurgeRemovesOnlyPublished(s: State, ids: set<nat>, row: nat)
    requires Enabled(s, Purge(ids)) && row in s.outbox
    ensures var t := Apply(s, Purge(ids));
            && row in t.outbox
            && (t.outbox[row].status == Purged <==> row in ids || s.outbox[row].status == Purged)
            && (row in ids ==> s.outbox[row].status == Published)
            && (row !in ids ==> t.outbox[row] == s.outbox[row])
  {
  }

  /** A failure report counts an attempt; it moves no claim and no status. */
  lemma RecordFailureKeeps(s: State, relay: nat)
    requires LockInv(s) && PushInv(s)
    requires Enabled(s, RecordFailure(relay))
    ensures LockInv(Apply(s, RecordFailure(relay)))
    ensures PushInv(Apply(s, RecordFailure(relay)))
  {
    var t := RecordFailureEffect(s, relay);
    forall a | a in t.claims ensures ClaimOk(t, t.claims[a]) {
      assert ClaimOk(s, s.claims[a]);
    }
    forall row ensures AccountedFor(t, row) {
      assert AccountedFor(s, row);
      SameHeld(s, t, row);
    }
  }

  lemma PurgeKeeps(s: State, ids: set<nat>)
    requires LockInv(s) && PushInv(s)
    requires Enabled(s, Purge(ids))
    ensures LockInv(Apply(s, Purge(ids)))
    ensures PushInv(Apply(s, Purge(ids)))
  {
    var t := PurgeEffect(s, ids);
    forall a | a in t.claims ensures ClaimOk(t, t.claims[a]) {
      assert ClaimOk(s, s.claims[a]);
    }
    forall row ensures AccountedFor(t, row) {
      assert AccountedFor(s, row);
      SameHeld(s, t, row);
    }
  }

  /** A pending report is about an existing row, which its relay's claim, if still open, claimed first. */
  ghost predicate ReportInv(s: State) {
    forall a :: a in s.reports ==>
      && s.reports[a] in s.outbox
      && (a in s.claims ==>
            s.claims[a].phase == Reporting && s.claims[a].rows != [] && s.claims[a].rows[0] == s.reports[a])
  }

  lemma StepKeepsReports(s: State, step: Step)
    requires ReportInv(s) && Enabled(s, step)
    ensures ReportInv(Apply(s, step))
  {
    if !RelaySide(step) {
      OtherSteps(s, step);
    } else if step.Publish? {
      PublishKeepsReports(s, step.relay, step.reply);
    } else {
      hide CommitBatchEffect, PurgeEffect, IsNextBatch, Locked;
    }
  }

  /** Only a failed first push makes a report, about the row it tried. */
  lemma PublishKeepsReports(s: State, relay: nat, reply: Reply)
    requires ReportInv(s) && Enabled(s, Publish(relay, reply))
    ensures ReportInv(PublishEffect(s, relay, reply))
  {
    hide Send, EnqueueTo, IsNextBatch, Locked;
    var c := s.claims[relay];
    var t := PublishEffect(s, relay, reply);
    assert relay !in s.reports;
    assert || t.reports == s.reports
           || (c.next == 0 && t.reports == s.reports[relay := c.rows[0]] && t.claims[relay].phase == Reporting);
  }

  predicate RelaySide(step: Step) {
    step.CommitBatch? || step.WriteRow? || step.BeginClaim? || step.Publish? || step.CommitClaim? ||
    step.AbortClaim? || step.RecordFailure? || step.GiveUpReport? || step.Purge?
  }

  lemma OtherSteps(s: State, step: Step)
    requires Enabled(s, step) && !RelaySide(step)
    ensures SameRelaySide(s, Apply(s, step))
  {
    hide PopEffect, HandOffEffect, RequeueEffect, DieEffect, Send, WithStage, EnqueueTo, RequeueTo;
  }

  /** What every reachable state satisfies. */
  ghost predicate Safe(s: State) {
    LockInv(s) && PushInv(s) && ReportInv(s)
  }

  lemma StepKeeps(s: State, step: Step)
    requires Safe(s) && Enabled(s, step)
    ensures Safe(Apply(s, step))
  {
    StepKeepsReports(s, step);
    if RelaySide(step) {
      RelayStepKeeps(s, step);
    } else {
      OtherSteps(s, step);
      OtherStepsKeep(s, Apply(s, step));
    }
  }

  lemma CommitBatchKeeps(s: State, run: nat, rows: map<nat, Job>)
    requires LockInv(s) && PushInv(s) && Enabled(s, CommitBatch(run, rows))
    ensures LockInv(CommitBatchEffect(s, run, rows)) && PushInv(CommitBatchEffect(s, run, rows))
  {
    NewRowsKeep(s, CommitBatchEffect(s, run, rows));
  }

  lemma PublishKeeps(s: State, relay: nat, reply: Reply)
    requires LockInv(s) && PushInv(s) && Enabled(s, Publish(relay, reply))
    ensures LockInv(PublishEffect(s, relay, reply)) && PushInv(PublishEffect(s, relay, reply))
  {
    PublishProgresses(s, relay, reply);
    var t := PublishEffect(s, relay, reply);
    hide PublishEffect;
    ProgressKeepsLocks(s, t, relay);
    forall row ensures AccountedFor(t, row) {
      ProgressAccounts(s, t, relay, row);
    }
  }

  lemma RelayStepKeeps(s: State, step: Step)
    requires LockInv(s) && PushInv(s) && Enabled(s, step) && RelaySide(step)
    ensures LockInv(Apply(s, step)) && PushInv(Apply(s, step))
  {
    match step
    case CommitBatch(run, rows) => CommitBatchKeeps(s, run, rows);
    case WriteRow(row, payload) => NewRowsKeep(s, Apply(s, step));
    case BeginClaim(relay, limit, batch) => BeginClaimKeeps(s, relay, limit, batch);
    case Publish(relay, reply) => PublishKeeps(s, relay, reply);
    case CommitClaim(relay) => CommitClaimKeeps(s, relay);
    case AbortClaim(relay) => AbortClaimKeeps(s, relay);
    case RecordFailure(relay) => RecordFailureKeeps(s, relay);
    case GiveUpReport(relay) => OtherStepsKeep(s, Apply(s, step));
    case Purge(ids) => PurgeKeeps(s, ids);
  }

  lemma {:induction false} RunKeeps(s: State, steps: seq<Step>, t: State)
    requires Safe(s) && Runs(s, steps, t)
    ensures Safe(t)
    decreases steps
  {
    if steps != [] {
      StepKeeps(s, steps[0]);
      RunKeeps(Apply(s, steps[0]), steps[1..], t);
    }
  }

  lemma InitHolds()
    ensures Safe(INIT)
  {
    forall row ensures AccountedFor(INIT, row) {}
  }

  lemma ReachableIsSafe(s: State)
    requires Reachable(s)
    ensures Safe(s)
  {
    InitHolds();
    var steps :| Runs(INIT, steps, s);
    RunKeeps(INIT, steps, s);
  }

  /** At least once: whatever the interleaving, a published (or since purged) job row reached Redis. */
  lemma AtLeastOnce(s: State, row: nat)
    requires Reachable(s)
    requires IsParsed(s, row) && s.outbox[row].status != Unpublished
    ensures s.pushes[row] >= 1
  {
    ReachableIsSafe(s);
    assert AccountedFor(s, row);
  }

  /** Every push of every row is accounted for, in every reachable state. */
  lemma DuplicateAccounting(s: State, row: nat)
    requires Reachable(s)
    ensures s.pushes[row] ==
              (if Delivered(s, row) then 1 else 0) + s.aborted[row] + s.unacked[row]
              + (if HeldPushed(s, row) then 1 else 0)
    ensures Delivered(s, row) ==> (s.pushes[row] == 1 <==> s.aborted[row] == 0 && s.unacked[row] == 0)
  {
    ReachableIsSafe(s);
    assert AccountedFor(s, row);
    if HeldPushed(s, row) {
      var a :| a in s.claims && s.claims[a].next <= |s.claims[a].rows| && row in PushedBy(s, s.claims[a]);
      assert ClaimOk(s, s.claims[a]);
    }
  }

  /** SKIP LOCKED keeps relays apart: two open claims never hold the same row, and only unpublished ones. */
  lemma ClaimsAreDisjoint(s: State, a: nat, b: nat, row: nat)
    requires Reachable(s)
    requires a in s.claims && b in s.claims && row in s.claims[a].rows && row in s.claims[b].rows
    ensures a == b && row in s.outbox && s.outbox[row].status == Unpublished
  {
    ReachableIsSafe(s);
    assert ClaimOk(s, s.claims[a]);
  }

  /******* Interference *******/

  /** A step taken by this relay, on its own claim or report. */
  predicate StepOf(step: Step, relay: nat) {
    match step
    case BeginClaim(a, _, _) => a == relay
    case Publish(a, _) => a == relay
    case CommitClaim(a) => a == relay
    case AbortClaim(a) => a == relay
    case RecordFailure(a) => a == relay
    case GiveUpReport(a) => a == relay
    case _ => false
  }

  /** Nobody else can move a claim, touch the rows it locks, or settle its relay's report. */
  ghost predicate ClaimKept(s: State, t: State, relay: nat) {
    && relay in s.claims && relay in t.claims
    && t.claims[relay] == s.claims[relay]
    && (relay in t.reports <==> relay in s.reports)
    && (relay in s.reports ==> t.reports[relay] == s.reports[relay])
    && (forall row :: row in s.claims[relay].rows ==>
          row in s.outbox && row in t.outbox && t.outbox[row] == s.outbox[row])
  }

  lemma StepOfAnother(s: State, step: Step, relay: nat)
    requires LockInv(s) && Enabled(s, step) && relay in s.claims && !StepOf(step, relay)
    ensures ClaimKept(s, Apply(s, step), relay)
  {
    assert ClaimOk(s, s.claims[relay]);
    if RelaySide(step) {
      RelayStepOfAnother(s, step, relay);
    } else {
      OtherSteps(s, step);
      hide Apply, Enabled;
    }
  }

  lemma RelayStepOfAnother(s: State, step: Step, relay: nat)
    requires LockInv(s) && Enabled(s, step) && RelaySide(step) && relay in s.claims && !StepOf(step, relay)
    ensures ClaimKept(s, Apply(s, step), relay)
  {
    hide LockInv, ClaimKept, CommitBatchEffect, PublishEffect, CommitClaimEffect, RecordFailureEffect, PurgeEffect;
    match step
    case CommitBatch(run, rows) => BatchKeepsClaims(s, run, rows, relay);
    case Publish(a, reply) => PublishOfAnother(s, a, reply, relay);
    case CommitClaim(a) => CommitOfAnother(s, a, relay);
    case RecordFailure(a) => ReportOfAnother(s, a, relay);
    case Purge(ids) => PurgeKeepsClaims(s, ids, relay);
    case _ => PlainStepOfAnother(s, step, relay);
  }

  lemma PlainStepOfAnother(s: State, step: Step, relay: nat)
    requires LockInv(s) && Enabled(s, step) && relay in s.claims && !StepOf(step, relay)
    requires step.WriteRow? || step.BeginClaim? || step.AbortClaim? || step.GiveUpReport?
    ensures ClaimKept(s, Apply(s, step), relay)
  {
    assert ClaimOk(s, s.claims[relay]);
    hide IsNextBatch;
  }

  lemma BatchKeepsClaims(s: State, run: nat, rows: map<nat, Job>, relay: nat)
    requires LockInv(s) && Enabled(s, CommitBatch(run, rows)) && relay in s.claims
    ensures ClaimKept(s, CommitBatchEffect(s, run, rows), relay)
  {
    assert ClaimOk(s, s.claims[relay]);
  }

  lemma PurgeKeepsClaims(s: State, ids: set<nat>, relay: nat)
    requires LockInv(s) && Enabled(s, Purge(ids)) && relay in s.claims
    ensures ClaimKept(s, PurgeEffect(s, ids), relay)
  {
    assert ClaimOk(s, s.claims[relay]);
  }

  lemma CommitOfAnother(s: State, a: nat, relay: nat)
    requires LockInv(s) && Enabled(s, CommitClaim(a)) && relay in s.claims && a != relay
    ensures ClaimKept(s, CommitClaimEffect(s, a), relay)
  {
    assert ClaimOk(s, s.claims[relay]);
    forall row | row in s.claims[relay].rows ensures row !in s.claims[a].rows[..s.claims[a].next] {}
  }

  lemma ReportOfAnother(s: State, a: nat, relay: nat)
    requires LockInv(s) && Enabled(s, RecordFailure(a)) && relay in s.claims && a != relay
    ensures ClaimKept(s, RecordFailureEffect(s, a), relay)
  {
    assert ClaimOk(s, s.claims[relay]);
    forall row | row in s.claims[relay].rows ensures row != s.reports[a] {
      assert Locked(s, row);
    }
  }

  lemma PublishOfAnother(s: State, a: nat, reply: Reply, relay: nat)
    requires LockInv(s) && Enabled(s, Publish(a, reply)) && relay in s.claims && a != relay
    ensures ClaimKept(s, PublishEffect(s, a, reply), relay)
  {
    assert ClaimOk(s, s.claims[relay]);
    PublishProgresses(s, a, reply);
  }

  lemma {:induction false} RunOfOthers(s: State, steps: seq<Step>, t: State, relay: nat)
    requires Safe(s) && Runs(s, steps, t) && relay in s.claims
    requires forall step :: step in steps ==> !StepOf(step, relay)
    ensures ClaimKept(s, t, relay)
    decreases steps
  {
    assert ClaimOk(s, s.claims[relay]);
    if steps != [] {
      var u := Apply(s, steps[0]);
      StepKeeps(s, steps[0]);
      StepOfAnother(s, steps[0], relay);
      RunOfOthers(u, steps[1..], t, relay);
    }
  }

  /******* Reporting a failed first push *******/

  /**
   The report goes through the pool and waits for the row's lock: it is possible exactly when the claim
   that met the failure has ended, and no other claim holds the row.
   */
  lemma ReportIsPossible(s: State, relay: nat)
    requires Reachable(s)
    ensures Enabled(s, RecordFailure(relay)) <==>
            && relay in s.reports && relay !in s.claims
            && forall other :: other in s.claims ==> s.reports[relay] !in s.claims[other].rows
  {
    ReachableIsSafe(s);
    ReportWaitsForLocks(s, relay);
  }

  lemma ReportWaitsForLocks(s: State, relay: nat)
    requires ReportInv(s)
    ensures Enabled(s, RecordFailure(relay)) <==>
            && relay in s.reports && relay !in s.claims
            && forall other :: other in s.claims ==> s.reports[relay] !in s.claims[other].rows
  {
    if relay in s.reports && relay in s.claims {
      assert s.claims[relay].rows[0] in s.claims[relay].rows;
      assert Locked(s, s.reports[relay]);
    }
  }

  /**
   Ending the claim is enough: a report that waits for its own relay's claim can be made as soon as that
   ends, and then counts an attempt on the row, which stays unpublished.
   */
  lemma EndedClaimFreesReport(s: State, relay: nat)
    requires Reachable(s) && relay in s.reports && relay in s.claims
    ensures Enabled(s, AbortClaim(relay)) && Enabled(Apply(s, AbortClaim(relay)), RecordFailure(relay))
    ensures var row := s.reports[relay];
            var t := Apply(Apply(s, AbortClaim(relay)), RecordFailure(relay));
            && t.outbox == s.outbox[row := s.outbox[row].(attempts := s.outbox[row].attempts + 1)]
            && s.outbox[row].status == Unpublished && relay !in t.claims && relay !in t.reports
  {
    ReachableIsSafe(s);
    assert ClaimOk(s, s.claims[relay]);
    var row := s.reports[relay];
    assert row == s.claims[relay].rows[0] && row in s.claims[relay].rows;
    var t := AbortClaimEffect(s, relay);
    ReleasedNotLocked(s, t, relay, row);
  }

  lemma ReleasedNotLocked(s: State, t: State, relay: nat, row: nat)
    requires LockInv(s) && relay in s.claims && row in s.claims[relay].rows
    requires t.claims == s.claims - {relay}
    ensures !Locked(t, row)
  {
    forall a | a in t.claims ensures row !in t.claims[a].rows {
      assert a in s.claims;
    }
  }

  /** The smallest way there: one row, claimed, and a push that Redis refuses. */
  lemma ReportingIsReachable(job: Job)
    requires Fresh(job)
    ensures exists s :: && Runs(INIT, [WriteRow(0, Parsed(job)), BeginClaim(0, 100, [0]), Publish(0, Refused)], s)
                        && 0 in s.claims && s.claims[0].phase == Reporting && s.reports == map[0 := 0]
                        && s.outbox == map[0 := Row(Parsed(job), Unpublished, 0)]
  {
    var s1 := Apply(INIT, WriteRow(0, Parsed(job)));
    assert IsNextBatch(s1, [0], 100);
    var s2 := Apply(s1, BeginClaim(0, 100, [0]));
    var s3 := Apply(s2, Publish(0, Refused));
    var steps := [WriteRow(0, Parsed(job)), BeginClaim(0, 100, [0]), Publish(0, Refused)];
    assert steps[1..] == [BeginClaim(0, 100, [0]), Publish(0, Refused)];
    assert Runs(s2, [Publish(0, Refused)], s3);
    assert Runs(s1, steps[1..], s3);
    assert Runs(INIT, steps, s3);
  }

  /** And the smallest way out: the server ends the claim, and the waiting report lands. */
  lemma ReportLands(job: Job)
    requires Fresh(job)
    ensures exists s, t :: && Reachable(s) && 0 in s.reports && 0 in s.claims
                           && Runs(s, [AbortClaim(0), RecordFailure(0)], t)
                           && t.outbox == map[0 := Row(Parsed(job), Unpublished, 1)]
  {
    hide Enabled, Apply;
    ReportingIsReachable(job);
    var steps := [WriteRow(0, Parsed(job)), BeginClaim(0, 100, [0]), Publish(0, Refused)];
    var s :| && Runs(INIT, steps, s) && 0 in s.claims && s.reports == map[0 := 0]
             && s.outbox == map[0 := Row(Parsed(job), Unpublished, 0)];
    assert Reachable(s);
    EndedClaimFreesReport(s, 0);
    var u := Apply(s, AbortClaim(0));
    var t := Apply(u, RecordFailure(0));
    assert Runs(u, [RecordFailure(0)], t);
    assert [AbortClaim(0), RecordFailure(0)][1..] == [RecordFailure(0)];
    assert Runs(s, [AbortClaim(0), RecordFailure(0)], t);
  }

  /**
   A relay whose first push failed waits, while reporting it, for a lock its own transaction holds. Short
   of that transaction ending, no continuation of any kind moves the claim or changes its rows.
   */
  lemma ReportingRelayIsStuck(s: State, after: seq<Step>, t: State, relay: nat)
    requires Reachable(s) && Runs(s, after, t)
    requires relay in s.claims && s.claims[relay].phase == Reporting
    requires AbortClaim(relay) !in after
    ensures relay in t.claims && t.claims[relay] == s.claims[relay]
    ensures forall row :: row in s.claims[relay].rows ==>
              row in s.outbox && row in t.outbox && t.outbox[row] == s.outbox[row] && t.outbox[row].status == Unpublished
  {
    ReachableIsSafe(s);
    StuckRun(s, after, t, relay);
    assert ClaimOk(t, t.claims[relay]);
  }

  lemma StuckStep(s: State, step: Step, relay: nat)
    requires Safe(s) && Enabled(s, step)
    requires relay in s.claims && s.claims[relay].phase == Reporting && step != AbortClaim(relay)
    ensures var t := Apply(s, step);
            && relay in t.claims && t.claims[relay] == s.claims[relay]
            && forall row :: row in s.claims[relay].rows ==>
                 row in s.outbox && row in t.outbox && t.outbox[row] == s.outbox[row]
  {
    ReportWaitsForLocks(s, relay);
    assert ClaimOk(s, s.claims[relay]);
    if !StepOf(step, relay) {
      StepOfAnother(s, step, relay);
    }
  }

  lemma {:induction false} StuckRun(s: State, steps: seq<Step>, t: State, relay: nat)
    requires Safe(s) && Runs(s, steps, t)
    requires relay in s.claims && s.claims[relay].phase == Reporting
    requires AbortClaim(relay) !in steps
    ensures Safe(t) && relay in t.claims && t.claims[relay] == s.claims[relay]
    ensures forall row :: row in s.claims[relay].rows ==> row in s.outbox && row in t.outbox && t.outbox[row] == s.outbox[row]
    decreases steps
  {
    assert ClaimOk(s, s.claims[relay]);
    if steps != [] {
      StepKeeps(s, steps[0]);
      StuckStep(s, steps[0], relay);
      StuckRun(Apply(s, steps[0]), steps[1..], t, relay);
    }
  }
}
