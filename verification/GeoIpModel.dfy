/** The GeoIP lookups as a state machine: one worker, a queue under a mutex, the network information under
    another, and logins and logouts that may come between any two critical sections. */
module GeoIpModel {
  import opened Identity
  import Backoff

  type Ip = string

  /** ClientNetworkInfo. */
  datatype Info = Info(clientIp: Ip, country: string, region: string, city: string, location: string)

  function Bare(ip: Ip): Info {
    Info(ip, "", "", "", "")
  }

  datatype Job = Job(clientIp: Ip, runAt: int)

  const MAX_JOBS := 1024

  // ---- what the queue mutex guards --------------------------------------------------------

  datatype Queue = Queue(jobs: multiset<Job>, pending: map<Ip, int>, failures: map<Ip, nat>, stopped: bool)

  predicate Accepts(q: Queue, ip: Ip) {
    !q.stopped && ip !in q.pending && |q.jobs| < MAX_JOBS
  }

  function Push(q: Queue, ip: Ip, runAt: int): Queue {
    q.(jobs := q.jobs + multiset{Job(ip, runAt)}, pending := q.pending[ip := runAt])
  }

  /** The locked part of EnqueueGeoIpLookup. */
  function Enqueue(q: Queue, ip: Ip, runAt: int): Queue {
    if Accepts(q, ip) then Push(q, ip, runAt) else q
  }

  /** The worker's pop: the earliest job, once it is due. */
  predicate Due(q: Queue, job: Job, now: int) {
    !q.stopped && job in q.jobs && job.runAt <= now && forall j :: j in q.jobs ==> job.runAt <= j.runAt
  }

  function Pop(q: Queue, job: Job): Queue {
    q.(jobs := q.jobs - multiset{job})
  }

  /** The stale test: a job whose pending entry is gone or names another time is dropped. */
  predicate Current(q: Queue, job: Job) {
    job.clientIp in q.pending && q.pending[job.clientIp] == job.runAt
  }

  /** Ends a lookup: on success, on giving up, and on an answer that is final. */
  function Forget(q: Queue, ip: Ip): Queue {
    q.(pending := q.pending - {ip}, failures := q.failures - {ip})
  }

  function FailuresOf(q: Queue, ip: Ip): nat {
    if ip in q.failures then q.failures[ip] else 0
  }

  function CountFailure(q: Queue, ip: Ip): Queue {
    q.(failures := q.failures[ip := FailuresOf(q, ip) + 1])
  }

  /** A retry: the entry moves to the new time, or is dropped when the queue is full or stopped. Only a
      successful lookup or giving up forgets the failure count. */
  function Reschedule(q: Queue, ip: Ip, retryAt: int): Queue {
    var freed := q.(pending := q.pending - {ip});
    if !q.stopped && |q.jobs| < MAX_JOBS then Push(freed, ip, retryAt) else freed
  }

  function Stop(q: Queue): Queue {
    Queue(multiset{}, map[], map[], true)
  }

  // ---- the whole system -------------------------------------------------------------------

  datatype Lookup = Lookup(info: Info, resolved: bool, retryable: bool)

  /** Where the I/O thread is inside EnqueueClientNetworkInfo. */
  datatype Io = Quiet | Stored(ip: Ip) | Timed(ip: Ip, runAt: int)

  /** Where the worker is inside ProcessGeoIpLookup. */
  datatype Worker =
    | Idle
    | Popped(job: Job)                        // about to make the stale test
    | Checked(job: Job)                      // about to ask whether a device has the address
    | Resolving(job: Job)                     // inside the resolver
    | Answered(job: Job, answer: Lookup)      // about to ask again
    | Deciding(job: Job, answer: Lookup)      // about to act on the answer
    | Failed(job: Job, failures: nat)         // about to choose between retrying and giving up
    | Retrying(job: Job, retryAt: int)        // about to put the job back
    | GivingUp(job: Job)                      // about to forget the job
    | Updating(job: Job, info: Info)          // forgotten; about to update the devices

  /** `lastIp` is the address of each device's latest login, `dropped` the addresses whose latest lookup was
      given up or refused, `refused` those whose retry found the queue full or stopped and that were not looked up to
      the end since: bookkeeping that the source does not keep. */
  datatype Geo = Geo(q: Queue, net: map<Id, Info>, cache: map<Ip, Info>, clock: int, io: Io, worker: Worker,
                     lastIp: map<Id, Ip>, dropped: set<Ip>, refused: set<Ip>)

  datatype Step =
    | Login(device: Id, ip: Ip)
    | Logout(device: Id)
    | ReadClock
    | DoEnqueue
    | Tick(now: int)
    | TakeJob(job: Job)
    | StaleTest
    | FirstLook
    | Resolve(answer: Lookup)
    | SecondLook
    | Decide
    | ChooseRetry(base: nat, cap: nat)
    | PutBack
    | GiveUp
    | Update
    | StopWorker

  predicate SomeoneHas(net: map<Id, Info>, ip: Ip) {
    ip != "" && exists d :: d in net && net[d].clientIp == ip
  }

  /** UpdateDevicesWithClientIp. */
  function UpdateNet(net: map<Id, Info>, ip: Ip, info: Info): map<Id, Info> {
    if ip == "" then net
    else map d | d in net :: if net[d].clientIp == ip then info else net[d]
  }

  /** ResolveWithRetryInfo: a cached answer is final, a private address is never looked up, and only answers with
      a location are cached. What the network says is left open, but it is about the address asked for. */
  predicate ResolverAnswers(cache: map<Ip, Info>, ip: Ip, answer: Lookup) {
    && answer.info.clientIp == ip
    && (if ip in cache then answer == Lookup(cache[ip], true, false)
        else answer.resolved == (answer.info.location != "") && (answer.resolved ==> !answer.retryable))
  }

  function CacheAfter(cache: map<Ip, Info>, ip: Ip, answer: Lookup): map<Ip, Info> {
    if answer.info.location != "" then cache[ip := answer.info] else cache
  }

  ghost predicate Next(g: Geo, step: Step, g': Geo) {
    match step
    case Login(d, ip) =>
      && g.io.Quiet? && d != ""
      && g' == g.(net := g.net[d := Bare(ip)], lastIp := g.lastIp[d := ip],
          io := if ip == "" then Quiet else Stored(ip))
    case Logout(d) => g' == g.(net := g.net - {d}, lastIp := g.lastIp - {d})
    case ReadClock => g.io.Stored? && g' == g.(io := Timed(g.io.ip, g.clock))
    case DoEnqueue =>
      && g.io.Timed?
      && g' == g.(io := Quiet, q := Enqueue(g.q, g.io.ip, g.io.runAt),
                  dropped := if Accepts(g.q, g.io.ip) then g.dropped - {g.io.ip}
                             else if g.io.ip in g.q.pending then g.dropped else g.dropped + {g.io.ip})
    case Tick(now) => g.clock <= now && g' == g.(clock := now)
    case TakeJob(job) =>
      g.worker.Idle? && Due(g.q, job, g.clock) && g' == g.(q := Pop(g.q, job), worker := Popped(job))
    case StaleTest =>
      && g.worker.Popped?
      && g' == g.(worker := if Current(g.q, g.worker.job) then Checked(g.worker.job) else Idle)
    case FirstLook =>
      && g.worker.Checked?
      && g' == g.(worker := if SomeoneHas(g.net, g.worker.job.clientIp) then Resolving(g.worker.job)
                            else GivingUp(g.worker.job))
    case Resolve(answer) =>
      && g.worker.Resolving? && ResolverAnswers(g.cache, g.worker.job.clientIp, answer)
      && g' == g.(worker := Answered(g.worker.job, answer), cache := CacheAfter(g.cache, g.worker.job.clientIp, answer))
    case SecondLook =>
      && g.worker.Answered?
      && g' == g.(worker := if SomeoneHas(g.net, g.worker.job.clientIp) then Deciding(g.worker.job, g.worker.answer)
                            else GivingUp(g.worker.job))
    case Decide =>
      && g.worker.Deciding?
      && var job, answer := g.worker.job, g.worker.answer;
         if answer.resolved then
           g' == g.(q := Forget(g.q, job.clientIp), worker := Updating(job, answer.info),
               refused := g.refused - {job.clientIp})
         else if !answer.retryable then
           g' == g.(q := Forget(g.q, job.clientIp), worker := Idle,
                    dropped := g.dropped + {job.clientIp}, refused := g.refused - {job.clientIp})
         else
           g' == g.(q := CountFailure(g.q, job.clientIp), worker := Failed(job, FailuresOf(g.q, job.clientIp) + 1))
    case ChooseRetry(base, cap) =>
      && g.worker.Failed?
      && var job, delay := g.worker.job, Backoff.Delay(base, cap, g.worker.failures);
         g' == g.(worker := if delay > 0 && SomeoneHas(g.net, job.clientIp) then Retrying(job, g.clock + delay)
                            else GivingUp(job))
    case PutBack =>
      && g.worker.Retrying?
      && var ip := g.worker.job.clientIp;
         g' == g.(q := Reschedule(g.q, ip, g.worker.retryAt), worker := Idle,
                  dropped := if !g.q.stopped && |g.q.jobs| < MAX_JOBS then g.dropped - {ip} else g.dropped + {ip},
                  refused := if !g.q.stopped && |g.q.jobs| < MAX_JOBS then g.refused else g.refused + {ip})
    case GiveUp =>
      && g.worker.GivingUp?
      && var ip := g.worker.job.clientIp;
         g' == g.(q := Forget(g.q, ip), worker := Idle, dropped := g.dropped + {ip}, refused := g.refused - {ip})
    case Update =>
      && g.worker.Updating?
      && g' == g.(net := UpdateNet(g.net, g.worker.job.clientIp, g.worker.info), worker := Idle)
    case StopWorker =>
      g' == g.(q := Stop(g.q), dropped := g.dropped + g.q.pending.Keys)
  }

  ghost predicate Init(g: Geo) {
    && g.q == Queue(multiset{}, map[], map[], false) && g.net == map[] && g.cache == map[]
    && g.io == Quiet && g.worker == Idle && g.lastIp == map[] && g.dropped == {} && g.refused == {}
  }

  /** A run: steps of the model from some state, last one outermost. */
  datatype Path = Here | Go(before: Path, step: Step, to: Geo)

  function EndOf(g: Geo, p: Path): Geo {
    if p.Here? then g else p.to
  }

  ghost predicate Walks(g: Geo, p: Path) {
    p.Here? || (Walks(g, p.before) && Next(EndOf(g, p.before), p.step, p.to))
  }

  // ---- invariants -------------------------------------------------------------------------

  /** The job the worker holds and has not yet forgotten. */
  predicate InFlight(w: Worker, ip: Ip) {
    match w
    case Idle => false
    case Updating(_, _) => false
    case _ => w.job.clientIp == ip
  }

  predicate Queued(q: Queue, ip: Ip) {
    ip in q.pending && Job(ip, q.pending[ip]) in q.jobs
  }

  /** Until stop: the pending addresses are exactly the queued ones plus the one in flight; each job is queued
      once, at its pending time; the job in flight is current; and at most 1024 jobs are queued. */
  ghost predicate QueueOk(g: Geo) {
    !g.q.stopped ==>
      && |g.q.jobs| <= MAX_JOBS
      && (forall j :: j in g.q.jobs ==> g.q.jobs[j] == 1 && Current(g.q, j))
      && (forall ip :: ip in g.q.pending ==> (InFlight(g.worker, ip) <==> !Queued(g.q, ip)))
      && (!g.worker.Idle? && !g.worker.Updating? ==> Current(g.q, g.worker.job))
  }

  /** The information of every device is about the address of its latest login: bare, or the resolver's answer. */
  ghost predicate AttributionOk(g: Geo) {
    && g.net.Keys == g.lastIp.Keys
    && (forall d :: d in g.net ==> Attributed(g, g.net[d], g.lastIp[d]))
    && (forall ip :: ip in g.cache ==> g.cache[ip].clientIp == ip && g.cache[ip].location != "")
    && (g.worker.Updating? ==> Answers(g, g.worker.job, g.worker.info))
    && (g.worker.Answered? || g.worker.Deciding? ==>
          g.worker.answer.resolved ==> Answers(g, g.worker.job, g.worker.answer.info))
  }

  predicate Attributed(g: Geo, info: Info, ip: Ip) {
    info == Bare(ip) || (ip in g.cache && info == g.cache[ip])
  }

  predicate Answers(g: Geo, job: Job, info: Info) {
    job.clientIp in g.cache && info == g.cache[job.clientIp]
  }

  predicate AboutToEnqueue(io: Io, ip: Ip) {
    !io.Quiet? && io.ip == ip
  }

  /** Somebody will still see to this address: its lookup is pending, its answer is about to be written, or the
      login that needs it is about to enqueue it. */
  predicate SeenTo(g: Geo, ip: Ip) {
    || ip in g.q.pending
    || (g.worker.Updating? && g.worker.job.clientIp == ip)
    || AboutToEnqueue(g.io, ip)
  }

  /** No device is left waiting for a lookup that nobody has dropped. */
  ghost predicate NobodyMissed(g: Geo) {
    forall d :: d in g.net && g.net[d].location == "" && g.net[d].clientIp != "" ==>
      SeenTo(g, g.net[d].clientIp) || g.net[d].clientIp in g.dropped
  }

  /** The worker is between counting a failure of this address and deciding what becomes of it. */
  predicate JustFailed(w: Worker, ip: Ip) {
    (w.Failed? || w.Retrying? || w.GivingUp?) && w.job.clientIp == ip
  }

  predicate CountKept(g: Geo, ip: Ip) {
    FailuresOf(g.q, ip) > 0 && (ip in g.q.pending || JustFailed(g.worker, ip) || ip in g.refused)
  }

  /** A failure count outlives its lookup only when the retry was refused; and the count the delay is computed from
      is the one on record. */
  ghost predicate FailuresOk(g: Geo) {
    && (forall ip :: ip in g.q.failures ==> CountKept(g, ip))
    && (g.worker.Failed? && !g.q.stopped ==> g.worker.failures == FailuresOf(g.q, g.worker.job.clientIp))
  }

  /** Until stop, no lookup of a dropped address is pending: whatever is dropped is dropped for good, unless a later
      login asks again. */
  ghost predicate DroppedOk(g: Geo) {
    !g.q.stopped ==> forall ip :: ip in g.dropped ==> ip !in g.q.pending
  }

  ghost predicate Invariant(g: Geo) {
    QueueOk(g) && AttributionOk(g) && NobodyMissed(g) && FailuresOk(g) && DroppedOk(g)
  }
}
