/** The worker's main loop and its goroutines, sharing a channel of slots and a wait group. */
module WorkerSlots {
  import opened Sequences

  /**
   Selecting: at the select, holding nothing. Holding: a slot is taken, Dequeue is being called.
   Dispatching: Dequeue returned a job. BackingOff: Dequeue failed and the slot was returned.
   Draining: waiting for the wait group. Stopped: returned; `clean` unless the wait timed out.
   */
  datatype Main = Selecting | Holding | Dispatching | BackingOff | Draining | Stopped(clean: bool)

  /** A dispatched job's goroutine: running, its slot returned, or past its wg.Done. */
  datatype Task = Working | SlotReturned | Done

  /** `slots` is the channel's length, `pending` the wait group's counter, `dequeued` counts popped jobs. */
  datatype Pool = Pool(capacity: nat, slots: nat, pending: nat, main: Main, tasks: seq<Task>, dequeued: nat)

  datatype Move =
    | TakeSlot
    | Cancelled
    | GotJob
    | GotNothing
    | GotError
    | GotCancelled
    | Resume
    | Dispatch
    | ReturnSlot(task: nat)
    | SignalDone(task: nat)
    | WaitEnds
    | WaitTimesOut

  function Initial(capacity: nat): Pool {
    Pool(capacity, 0, 0, Selecting, [], 0)
  }

  predicate CanMove(p: Pool, m: Move) {
    match m
    case TakeSlot => p.main == Selecting && p.slots < p.capacity
    case Cancelled => p.main == Selecting || p.main == BackingOff
    case GotJob => p.main == Holding
    case GotNothing => p.main == Holding && p.slots > 0
    case GotError => p.main == Holding && p.slots > 0
    case GotCancelled => p.main == Holding && p.slots > 0
    case Resume => p.main == BackingOff
    case Dispatch => p.main == Dispatching
    case ReturnSlot(t) => t < |p.tasks| && p.tasks[t] == Working && p.slots > 0
    case SignalDone(t) => t < |p.tasks| && p.tasks[t] == SlotReturned && p.pending > 0
    case WaitEnds => p.main == Draining && p.pending == 0
    case WaitTimesOut => p.main == Draining
  }

  function Moved(p: Pool, m: Move): Pool
    requires CanMove(p, m)
  {
    match m
    case TakeSlot => p.(slots := p.slots + 1, main := Holding)
    case Cancelled => p.(main := Draining)
    case GotJob => p.(main := Dispatching, dequeued := p.dequeued + 1)
    case GotNothing => p.(slots := p.slots - 1, main := Selecting)
    case GotError => p.(slots := p.slots - 1, main := BackingOff)
    case GotCancelled => p.(slots := p.slots - 1, main := Draining)
    case Resume => p.(main := Selecting)
    case Dispatch => p.(pending := p.pending + 1, tasks := p.tasks + [Working], main := Selecting)
    case ReturnSlot(t) => p.(slots := p.slots - 1, tasks := p.tasks[t := SlotReturned])
    case SignalDone(t) => p.(pending := p.pending - 1, tasks := p.tasks[t := Done])
    case WaitEnds => p.(main := Stopped(true))
    case WaitTimesOut => p.(main := Stopped(false))
  }

  ghost predicate Reaches(p: Pool, moves: seq<Move>, q: Pool)
    decreases moves
  {
    if moves == [] then q == p
    else CanMove(p, moves[0]) && Reaches(Moved(p, moves[0]), moves[1..], q)
  }

  lemma {:induction false} ReachesOneMore(p: Pool, moves: seq<Move>, q: Pool, m: Move)
    requires Reaches(p, moves, q) && CanMove(q, m)
    ensures Reaches(p, moves + [m], Moved(q, m))
    decreases moves
  {
    if moves == [] {
      assert Reaches(Moved(q, m), [], Moved(q, m));
    } else {
      ReachesOneMore(Moved(p, moves[0]), moves[1..], q, m);
      assert (moves + [m])[1..] == moves[1..] + [m];
    }
  }

  function HoldsSlot(): Task -> nat {
    (t: Task) => if t == Working then 1 else 0
  }

  function Unfinished(): Task -> nat {
    (t: Task) => if t == Done then 0 else 1
  }

  function MainHolds(p: Pool): nat {
    if p.main == Holding || p.main == Dispatching then 1 else 0
  }

  ghost predicate SlotInv(p: Pool) {
    && p.slots == Sum(p.tasks, HoldsSlot()) + MainHolds(p)
    && p.pending == Sum(p.tasks, Unfinished())
    && p.slots <= p.capacity
    && p.dequeued == |p.tasks| + (if p.main == Dispatching then 1 else 0)
    && (p.main == Stopped(true) ==> p.pending == 0)
  }

  lemma MoveKeeps(p: Pool, m: Move)
    requires SlotInv(p) && CanMove(p, m)
    ensures SlotInv(Moved(p, m))
  {
    match m
    case Dispatch =>
      SumAppend(p.tasks, [Working], HoldsSlot());
      SumAppend(p.tasks, [Working], Unfinished());
      SumOne(Working, HoldsSlot());
      SumOne(Working, Unfinished());
    case ReturnSlot(t) =>
      SumUpdate(p.tasks, t, SlotReturned, HoldsSlot());
      SumUpdate(p.tasks, t, SlotReturned, Unfinished());
    case SignalDone(t) =>
      SumUpdate(p.tasks, t, Done, HoldsSlot());
      SumUpdate(p.tasks, t, Done, Unfinished());
    case _ =>
  }

  lemma {:induction false} MovesKeep(p: Pool, moves: seq<Move>, q: Pool)
    requires SlotInv(p) && Reaches(p, moves, q)
    ensures SlotInv(q) && q.capacity == p.capacity
    decreases moves
  {
    if moves != [] {
      MoveKeeps(p, moves[0]);
      MovesKeep(Moved(p, moves[0]), moves[1..], q);
    }
  }

  /**
   In every reachable state the occupied slots are the running jobs plus the one the main loop holds, and
   never more than the capacity; a job is only ever dequeued with a slot in hand, so the jobs popped and
   not yet past their slot never exceed it either.
   */
  lemma SlotConservation(capacity: nat, moves: seq<Move>, p: Pool)
    requires Reaches(Initial(capacity), moves, p)
    ensures p.slots == Sum(p.tasks, HoldsSlot()) + MainHolds(p)
    ensures p.slots <= capacity
    ensures CanMove(p, GotJob) ==> p.slots > Sum(p.tasks, HoldsSlot())
    ensures Sum(p.tasks, HoldsSlot()) + (p.dequeued - |p.tasks|) <= capacity
  {
    MovesKeep(Initial(capacity), moves, p);
  }

  lemma {:induction false} NoneUnfinished(tasks: seq<Task>)
    requires Sum(tasks, Unfinished()) == 0
    ensures forall t :: t in tasks ==> t == Done
    ensures Sum(tasks, HoldsSlot()) == 0
  {
    if tasks != [] {
      NoneUnfinished(tasks[1..]);
      assert tasks[0] == Done;
      assert tasks == [tasks[0]] + tasks[1..];
    }
  }

  lemma {:induction false} AllFinished(tasks: seq<Task>)
    requires forall t :: t in tasks ==> t == Done
    ensures Sum(tasks, Unfinished()) == 0
  {
    if tasks != [] {
      assert tasks[0] in tasks && forall t :: t in tasks[1..] ==> t in tasks;
      AllFinished(tasks[1..]);
    }
  }

  /** A clean stop leaves no slot taken and no job unfinished: every popped job's goroutine has ended. */
  lemma CleanStop(capacity: nat, moves: seq<Move>, p: Pool)
    requires Reaches(Initial(capacity), moves, p) && p.main == Stopped(true)
    ensures p.slots == 0 && p.pending == 0
    ensures |p.tasks| == p.dequeued && forall t :: t in p.tasks ==> t == Done
  {
    MovesKeep(Initial(capacity), moves, p);
    NoneUnfinished(p.tasks);
  }

  /** No receive from the channel and no wg.Done can ever find nothing there. */
  lemma ReleasesNeverBlock(capacity: nat, moves: seq<Move>, p: Pool, t: nat)
    requires Reaches(Initial(capacity), moves, p)
    ensures p.main == Holding ==> CanMove(p, GotNothing) && CanMove(p, GotError) && CanMove(p, GotCancelled)
    ensures t < |p.tasks| && p.tasks[t] == Working ==> CanMove(p, ReturnSlot(t))
    ensures t < |p.tasks| && p.tasks[t] == SlotReturned ==> CanMove(p, SignalDone(t))
  {
    MovesKeep(Initial(capacity), moves, p);
    if t < |p.tasks| {
      SumMember(p.tasks, p.tasks[t], HoldsSlot());
      SumMember(p.tasks, p.tasks[t], Unfinished());
    }
  }
}
