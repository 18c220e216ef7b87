/** The worker's own code: its main loop among the goroutines it starts, and what one run does to the queue. */
module Worker {
  import opened Jobs
  import opened RedisQueue
  import opened WorkerSlots

  /** What Dequeue returns: a job, no job in time, an error, or an error because the context is done. */
  datatype Brought = AJob | Nothing | AnError | Shutdown

  /**
   One turn of the main loop. Goroutines may move before the select, during Dequeue and during the back-off;
   `stop` and `stopLate` say that the select, or the back-off, sees the cancellation.
   */
  datatype Turn = Turn(before: seq<Move>, stop: bool, during: seq<Move>, brought: Brought,
                       after: seq<Move>, stopLate: bool)

  predicate TaskMove(m: Move) {
    m.ReturnSlot? || m.SignalDone?
  }

  /** The pool after those of the moves that are goroutine moves, each made if it is possible when its turn comes. */
  function AfterTasks(p: Pool, moves: seq<Move>): Pool
    decreases moves
  {
    if moves == [] then p
    else AfterTasks(if TaskMove(moves[0]) && CanMove(p, moves[0]) then Moved(p, moves[0]) else p, moves[1..])
  }

  lemma {:induction false} TasksFreeSlots(p: Pool, moves: seq<Move>)
    ensures AfterTasks(p, moves).slots <= p.slots && AfterTasks(p, moves).capacity == p.capacity
    decreases moves
  {
    if moves != [] {
      TasksFreeSlots(if TaskMove(moves[0]) && CanMove(p, moves[0]) then Moved(p, moves[0]) else p, moves[1..]);
    }
  }

  /** This turn asks the queue: its select does not see the cancellation, and finds a slot. */
  predicate Asks(p: Pool, t: Turn) {
    !t.stop && AfterTasks(p, t.before).slots < p.capacity
  }

  /** This turn sees the cancellation: at the select, from Dequeue, or in the back-off. */
  predicate Ends(p: Pool, t: Turn) {
    t.stop || (Asks(p, t) && (t.brought == Shutdown || (t.brought == AnError && t.stopLate)))
  }

  /** The move if it is possible. */
  function Next(p: Pool, m: Move): Pool {
    if CanMove(p, m) then Moved(p, m) else p
  }

  /** The pool a turn leaves: the goroutines' moves and the loop's own, in their order. */
  function AfterTurn(p: Pool, t: Turn): Pool {
    var q := AfterTasks(p, t.before);
    if t.stop then Next(q, Cancelled)
    else if q.slots >= q.capacity then q
    else
      var h := AfterTasks(Next(q, TakeSlot), t.during);
      match t.brought
      case AJob => Next(Next(h, GotJob), Dispatch)
      case Nothing => Next(h, GotNothing)
      case AnError => Next(AfterTasks(Next(h, GotError), t.after), if t.stopLate then Cancelled else Resume)
      case Shutdown => Next(h, GotCancelled)
  }

  /** A turn of the running loop dequeues the job it is brought exactly if it asks for it. */
  predicate TurnCounts(p: Pool, t: Turn, q: Pool) {
    && p.main == Selecting && q.capacity == p.capacity && q == AfterTurn(p, t)
    && q.dequeued == p.dequeued + (if Asks(p, t) && t.brought == AJob then 1 else 0)
    && (!t.stop && p.slots < p.capacity && t.brought == AJob ==> q.dequeued == p.dequeued + 1)
    && q.main == if Ends(p, t) then Draining else Selecting
  }

  /** A pool that has stopped, cleanly unless the wait ran out or a goroutine had not ended. */
  lemma StoppedPool(capacity: nat, trace: seq<Move>, p: Pool, expired: bool)
    requires Reaches(Initial(capacity), trace, p) && p.capacity == capacity
    requires p.main == Stopped(p.pending == 0 && !expired)
    ensures p.slots <= capacity && |p.tasks| == p.dequeued
    ensures p.main.clean <==> !expired && forall task :: task in p.tasks ==> task == Done
    ensures p.main.clean ==> p.slots == 0
  {
    MovesKeep(Initial(capacity), trace, p);
    if p.main.clean {
      NoneUnfinished(p.tasks);
    } else if forall task :: task in p.tasks ==> task == Done {
      AllFinished(p.tasks);
    }
  }

  class Loop {
    var p: Pool

    constructor (concurrency: nat)
      ensures p == Initial(concurrency)
    {
      p := Initial(concurrency);
    }

    method Do(m: Move, ghost trace: seq<Move>) returns (ghost longer: seq<Move>)
      requires CanMove(p, m) && Reaches(Initial(p.capacity), trace, p)
      modifies this
      ensures p == Moved(old(p), m)
      ensures longer == trace + [m] && Reaches(Initial(p.capacity), longer, p)
    {
      ghost var before := p;
      p := Moved(p, m);
      ReachesOneMore(Initial(p.capacity), trace, before, m);
      longer := trace + [m];
    }

    /** Whichever of the scheduled goroutine moves are possible happen. */
    method LetTasksMove(moves: seq<Move>, ghost trace: seq<Move>) returns (ghost longer: seq<Move>)
      requires Reaches(Initial(p.capacity), trace, p)
      modifies this
      ensures Reaches(Initial(p.capacity), longer, p)
      ensures p.main == old(p).main && p.capacity == old(p).capacity
      ensures p.slots <= old(p).slots && p.dequeued == old(p).dequeued
      ensures p == AfterTasks(old(p), moves)
    {
      longer := trace;
      for i := 0 to |moves|
        invariant AfterTasks(p, moves[i..]) == AfterTasks(old(p), moves)
        invariant Reaches(Initial(p.capacity), longer, p)
        invariant p.main == old(p).main && p.capacity == old(p).capacity
        invariant p.slots <= old(p).slots && p.dequeued == old(p).dequeued
      {
        assert moves[i..][0] == moves[i] && moves[i..][1..] == moves[i + 1..];
        if TaskMove(moves[i]) && CanMove(p, moves[i]) {
          longer := Do(moves[i], longer);
        }
      }
    }

    /** The slot taken for a Dequeue that brought no job can be given back at once. */
    method GiveBack(m: Move, ghost trace: seq<Move>) returns (ghost longer: seq<Move>)
      requires p.main == Holding && (m == GotNothing || m == GotError || m == GotCancelled)
      requires Reaches(Initial(p.capacity), trace, p)
      modifies this
      ensures CanMove(old(p), m) && p == Moved(old(p), m)
      ensures Reaches(Initial(p.capacity), longer, p)
    {
      ReleasesNeverBlock(p.capacity, trace, p, 0);
      longer := Do(m, trace);
    }

    /**
     One turn, from the select back to it; false once the cancellation has been seen. With no free slot
     the select waits, and the turn passes without a Dequeue.
     */
    method TakeTurn(t: Turn, ghost trace: seq<Move>) returns (running: bool, asked: bool, ghost longer: seq<Move>)
      requires p.main == Selecting && Reaches(Initial(p.capacity), trace, p)
      modifies this
      ensures Reaches(Initial(p.capacity), longer, p) && p.capacity == old(p).capacity
      ensures p.main == if running then Selecting else Draining
      ensures p.dequeued == old(p).dequeued + if asked && t.brought.AJob? then 1 else 0
      ensures t.stop ==> !asked && !running
      ensures asked <==> Asks(old(p), t)
      ensures !t.stop && old(p).slots < old(p).capacity ==> asked
      ensures running <==> !t.stop && !(asked && (t.brought == Shutdown || (t.brought == AnError && t.stopLate)))
      ensures p == AfterTurn(old(p), t) && TurnCounts(old(p), t, p)
    {
      TasksFreeSlots(p, t.before);
      hide AfterTasks, Reaches;
      asked := false;
      longer := LetTasksMove(t.before, trace);
      if t.stop {
        longer := Do(Cancelled, longer);
        return false, asked, longer;
      }
      if p.slots >= p.capacity {
        return true, asked, longer;
      }
      longer := Do(TakeSlot, longer);
      asked := true;
      longer := LetTasksMove(t.during, longer);
      match t.brought {
        case AJob =>
          longer := Do(GotJob, longer);
          longer := Do(Dispatch, longer);
        case Nothing =>
          longer := GiveBack(GotNothing, longer);
        case AnError =>
          longer := GiveBack(GotError, longer);
          longer := LetTasksMove(t.after, longer);
          if t.stopLate {
            longer := Do(Cancelled, longer);
            return false, asked, longer;
          }
          longer := Do(Resume, longer);
        case Shutdown =>
          longer := GiveBack(GotCancelled, longer);
          return false, asked, longer;
      }
      running := true;
    }

    /** The select sees the cancellation. */
    method Cancel(ghost trace: seq<Move>) returns (ghost longer: seq<Move>)
      requires p.main == Selecting && Reaches(Initial(p.capacity), trace, p)
      modifies this
      ensures Reaches(Initial(p.capacity), longer, p) && p == Next(old(p), Cancelled)
      ensures p == old(p).(main := Draining)
    {
      longer := Do(Cancelled, trace);
    }

    /** Waits for the goroutines, which move as scheduled meanwhile, or gives up: `expired` says the wait ran out. */
    method Drain(last: seq<Move>, expired: bool, ghost trace: seq<Move>) returns (clean: bool, ghost longer: seq<Move>)
      requires p.main == Draining && Reaches(Initial(p.capacity), trace, p)
      modifies this
      ensures Reaches(Initial(p.capacity), longer, p) && p.capacity == old(p).capacity
      ensures p.main == Stopped(clean) && p.dequeued == old(p).dequeued
      ensures p == Next(AfterTasks(old(p), last), if clean then WaitEnds else WaitTimesOut)
      ensures clean <==> p.pending == 0 && !expired
    {
      longer := LetTasksMove(last, trace);
      clean := p.pending == 0 && !expired;
      longer := Do(if clean then WaitEnds else WaitTimesOut, longer);
    }

    /**
     The whole of Start. It always stops, never with more slots taken than the concurrency allows, and
     with every job it dequeued given a goroutine; it stops cleanly exactly when all of those have ended
     before the wait ran out. The cancellation is seen after the last turn at the latest. `pools` tells the
     pool before each turn taken, and the one after the last: every turn up to the one that sees the
     cancellation is taken, and the job brought to a turn that found a slot is dequeued.
     */
    method Start(turns: seq<Turn>, last: seq<Move>, expired: bool)
      returns (clean: bool, ghost trace: seq<Move>, ghost pools: seq<Pool>)
      requires p == Initial(p.capacity)
      modifies this
      ensures Reaches(Initial(p.capacity), trace, p) && p.capacity == old(p).capacity
      ensures p.main == Stopped(clean)
      ensures p.slots <= p.capacity && |p.tasks| == p.dequeued
      ensures clean <==> !expired && forall task :: task in p.tasks ==> task == Done
      ensures clean ==> p.slots == 0
      ensures turns != [] && turns[0].stop ==> p.dequeued == 0
      ensures 1 <= |pools| <= |turns| + 1 && pools[0] == Initial(p.capacity)
      ensures forall i :: 0 <= i < |pools| - 1 ==> TurnCounts(pools[i], turns[i], pools[i + 1])
      ensures |pools| == |turns| + 1 || pools[|pools| - 1].main == Draining
      ensures p.dequeued == pools[|pools| - 1].dequeued
      ensures var stopped := if pools[|pools| - 1].main == Draining then pools[|pools| - 1] else Next(pools[|pools| - 1], Cancelled);
              p == Next(AfterTasks(stopped, last), if clean then WaitEnds else WaitTimesOut)
    {
      trace := [];
      pools := [p];
      assert Reaches(Initial(p.capacity), trace, p);
      hide TurnCounts, Asks, Ends, AfterTasks, AfterTurn, Reaches, Moved, CanMove;
      var running, asked, i := true, false, 0;
      while i < |turns| && running
        invariant i <= |turns|
        invariant Reaches(Initial(p.capacity), trace, p) && p.capacity == old(p).capacity
        invariant p.main == if running then Selecting else Draining
        invariant i == 0 ==> running && p.dequeued == 0
        invariant i > 0 && turns[0].stop ==> !running && p.dequeued == 0
        invariant |pools| == i + 1 && pools[0] == Initial(p.capacity) && pools[i] == p
        invariant forall j :: 0 <= j < i ==> TurnCounts(pools[j], turns[j], pools[j + 1])
      {
        running, asked, trace := TakeTurn(turns[i], trace);
        pools := pools + [p];
        i := i + 1;
      }
      if running {
        trace := Cancel(trace);
      }
      clean, trace := Drain(last, expired, trace);
      StoppedPool(p.capacity, trace, p, expired);
    }
  }

  /******* One job *******/

  /** How a handler ends. A panic carries an error, or some other value. */
  datatype Ending = Returned | Erred(message: string) | Panicked(error: Option<string>)

  /**
   run and execute: a failing or panicking handler puts its job back, on the main or the dead list; a job
   of unknown kind is retired without a handler. A failed requeue is only logged.
   */
  method Run(q: Queue, job: Job, handler: Ending, reply: Reply)
    modifies q
    ensures job.kind.Unknown? || handler.Returned? ==> q.Value() == old(q.Value())
    ensures !job.kind.Unknown? ==>
              && (handler.Erred? ==> q.Value() == RequeueTo(old(q.Value()), job, Some(handler.message), reply))
              && (handler == Panicked(None) ==>
                    q.Value() == RequeueTo(old(q.Value()), job, Some("panic in job handler"), reply))
              && (handler.Panicked? && handler.error.Some? ==>
                    q.Value() == RequeueTo(old(q.Value()), job, handler.error, reply))
  {
    if job.kind.Unknown? {
      return;
    }
    match handler {
      case Returned =>
      case Erred(message) =>
        var _, _ := q.Requeue(job, Some(message), reply);
      case Panicked(error) =>
        var _, _ := q.Requeue(job, if error.Some? then error else Some("panic in job handler"), reply);
    }
  }
}
