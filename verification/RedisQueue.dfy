/** The Redis-backed queue: two lists, changed one push or pop at a time. */
module RedisQueue {
  import opened Jobs

  /** What a BRPOP did: timed out, failed, or took an element, whose reply may have been lost. */
  datatype PopReply = TimedOut | Broken | Took | TookUnseen

  datatype Dequeued = Empty | Failed | Got(job: Job)

  class Queue {
    var main: seq<Entry>
    var dead: seq<Entry>
    var issued: nat

    constructor ()
      ensures Value() == Lists([], [], 0)
    {
      main, dead, issued := [], [], 0;
    }

    function Value(): Lists
      reads this
    {
      Lists(main, dead, issued)
    }

    /** The caller sees an error unless the push was acknowledged, even where it took effect. */
    method Enqueue(job: Job, reply: Reply) returns (failed: bool)
      modifies this
      ensures Value() == EnqueueTo(old(Value()), job, reply)
      ensures failed <==> reply != Acked
      ensures reply == Refused ==> main == old(main)
      ensures reply != Refused ==>
                && |main| == |old(main)| + 1 && main[1..] == old(main) && main[0].Stored?
                && var stored := main[0].job;
                   && stored == job.(id := stored.id, maxRetries := stored.maxRetries)
                   && stored.id == (if job.id == 0 then old(issued) + 1 else job.id)
                   && stored.maxRetries == (if job.maxRetries == 0 then 3 else job.maxRetries)
      ensures dead == old(dead)
    {
      var stamped := job;
      if stamped.id == NO_ID {
        issued := issued + 1;
        stamped := stamped.(id := issued);
      }
      if stamped.maxRetries == 0 {
        stamped := stamped.(maxRetries := DEFAULT_MAX_RETRIES);
      }
      if reply != Refused {
        main := [Stored(stamped)] + main;
      }
      failed := reply != Acked;
    }

    /**
     Oldest entry first, as the step system pops it. Bytes that do not parse are parked in the dead list; if
     that push fails they are gone, as if their reply had been lost.
     */
    method Dequeue(reply: PopReply, parked: Reply) returns (r: Dequeued)
      modifies this
      ensures issued == old(issued)
      ensures old(main) == [] || reply == TimedOut || reply == Broken ==> Value() == old(Value()) && !r.Got?
      ensures r == Failed <==> reply == Broken || (old(main) != [] && reply != TimedOut && !r.Got?)
      ensures old(main) != [] && (reply == Took || reply == TookUnseen) ==>
                var last := old(main)[|old(main)| - 1];
                && Value() == PopFrom(old(Value()), reply == Took && (last.Stored? || parked != Refused))
                && (r.Got? <==> reply == Took && last.Stored?)
                && (r.Got? ==> r.job == last.job)
                && main == old(main)[..|old(main)| - 1]
                && dead == if reply == Took && last.Raw? && parked != Refused then [last] + old(dead) else old(dead)
    {
      if reply == Broken {
        return Failed;
      }
      if reply == TimedOut || main == [] {
        return Empty;
      }
      var last := main[|main| - 1];
      main := main[..|main| - 1];
      if reply == TookUnseen {
        return Failed;
      }
      if last.Stored? {
        return Got(last.job);
      }
      if parked != Refused {
        dead := [last] + dead;
      }
      return Failed;
    }

    /** Back to the main list, or to the dead list once the retries are used up. */
    method Requeue(job: Job, cause: Option<string>, reply: Reply) returns (failed: bool, bumped: Job)
      modifies this
      ensures Value() == RequeueTo(old(Value()), job, cause, reply)
      ensures failed <==> reply != Acked
      ensures bumped.retries == job.retries + 1
      ensures bumped.lastError == if cause.Some? then cause.value else job.lastError
      ensures bumped.maxRetries == if job.maxRetries == 0 then 3 else job.maxRetries
      ensures bumped == job.(retries := bumped.retries, lastError := bumped.lastError, maxRetries := bumped.maxRetries)
      ensures var buried := bumped.retries >= bumped.maxRetries;
              && dead == (if buried && reply != Refused then [Stored(bumped)] + old(dead) else old(dead))
              && (buried || reply == Refused ==> main == old(main))
              && (!buried && reply != Refused && job.id != 0 ==> main == [Stored(bumped)] + old(main))
    {
      bumped := job.(retries := job.retries + 1);
      if cause.Some? {
        bumped := bumped.(lastError := cause.value);
      }
      if bumped.maxRetries == 0 {
        bumped := bumped.(maxRetries := DEFAULT_MAX_RETRIES);
      }
      if bumped.retries >= bumped.maxRetries {
        if reply != Refused {
          dead := [Stored(bumped)] + dead;
        }
        return reply != Acked, bumped;
      }
      failed := Enqueue(bumped, reply);
    }
  }
}
