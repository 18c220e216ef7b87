/** Jobs, the Redis lists that hold them, and what a push or a retry does to both. */
module Jobs {

  /** The job types a worker dispatches on; any other string is Unknown. */
  datatype Kind =
    | CollectBusiness
    | WebsiteCrawl
    | ExtractContacts
    | ExtractTechnology
    | FindSocials
    | RuleScoring
    | AIAudit
    | GenRecommendation
    | EmbedLead
    | Unknown(name: string)

  /** `id` is NO_ID until the first push; `body` stands for the fields no queue operation looks at. */
  datatype Job = Job(id: nat, kind: Kind, business: nat, body: string,
                     retries: int, maxRetries: int, lastError: string)

  datatype Option<+T> = None | Some(value: T)

  /** One element of a Redis list: a marshalled job, or bytes that do not parse as one. */
  datatype Entry = Stored(job: Job) | Raw(bytes: string)

  /** What an LPUSH did: took effect, did not, or took effect while the caller saw an error. */
  datatype Reply = Acked | Refused | Unacked

  /** `main` and `dead` have the LPUSH end at index 0; `issued` counts the ids handed out. */
  datatype Lists = Lists(main: seq<Entry>, dead: seq<Entry>, issued: nat)

  const NO_ID: nat := 0
  const DEFAULT_MAX_RETRIES: int := 3

  /** A job as producers write it: never pushed, never run. */
  predicate Fresh(job: Job) {
    job.id == NO_ID && job.retries == 0
  }

  /** How often a job with this MaxRetries may run: zero means the default, and one run always happens. */
  function Budget(maxRetries: int): (n: nat)
    ensures n >= 1
  {
    if maxRetries == 0 then DEFAULT_MAX_RETRIES else if maxRetries < 1 then 1 else maxRetries
  }

  /** The defaults Enqueue fills in before it marshals. */
  function Prepared(job: Job, nextId: nat): Job {
    job.(id := if job.id == NO_ID then nextId else job.id,
         maxRetries := if job.maxRetries == 0 then DEFAULT_MAX_RETRIES else job.maxRetries)
  }

  /** The changes Requeue makes to a failed job before it decides where the job goes. */
  function Bumped(job: Job, cause: Option<string>): Job {
    job.(retries := job.retries + 1,
         lastError := if cause.Some? then cause.value else job.lastError,
         maxRetries := if job.maxRetries == 0 then DEFAULT_MAX_RETRIES else job.maxRetries)
  }

  predicate Exhausted(job: Job) {
    job.retries >= job.maxRetries
  }

  function EnqueueTo(l: Lists, job: Job, reply: Reply): Lists {
    var stamped := Prepared(job, l.issued + 1);
    l.(main := if reply.Refused? then l.main else [Stored(stamped)] + l.main,
       issued := if job.id == NO_ID then l.issued + 1 else l.issued)
  }

  /** The oldest entry leaves; if it was delivered and is no job, it is parked in the dead list. */
  function PopFrom(l: Lists, delivered: bool): Lists
    requires l.main != []
  {
    var n := |l.main| - 1;
    l.(main := l.main[..n],
       dead := if delivered && l.main[n].Raw? then [l.main[n]] + l.dead else l.dead)
  }

  function RequeueTo(l: Lists, job: Job, cause: Option<string>, reply: Reply): Lists {
    var failed := Bumped(job, cause);
    if Exhausted(failed)
    then l.(dead := if reply.Refused? then l.dead else [Stored(failed)] + l.dead)
    else EnqueueTo(l, failed, reply)
  }
}
