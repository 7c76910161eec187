/** However logins, logouts and a slow lookup interleave: the queue stays consistent, no device gets another
    address's answer, and no device is forgotten except where a lookup was dropped. */
module GeoIpSafety {
  import opened Identity
  import opened GeoIpModel
  import Backoff

  // ---- the queue --------------------------------------------------------------------------

  lemma EnqueueKeepsQueue(g: Geo, g': Geo)
    requires QueueOk(g) && Next(g, DoEnqueue, g')
    ensures QueueOk(g')
  {
    if Accepts(g.q, g.io.ip) {
      var job := Job(g.io.ip, g.io.runAt);
      assert job !in g.q.jobs;
      forall ip | ip in g'.q.pending
        ensures InFlight(g'.worker, ip) <==> !Queued(g'.q, ip)
      {
        assert ip != g.io.ip ==> (Queued(g'.q, ip) <==> Queued(g.q, ip));
      }
    }
  }

  lemma TakeKeepsQueue(g: Geo, job: Job, g': Geo)
    requires QueueOk(g) && Next(g, TakeJob(job), g')
    ensures QueueOk(g')
  {
    forall ip | ip in g'.q.pending
      ensures InFlight(g'.worker, ip) <==> !Queued(g'.q, ip)
    {
      assert ip != job.clientIp ==> (Queued(g'.q, ip) <==> Queued(g.q, ip));
    }
  }

  lemma QueuedIsNotInFlight(g: Geo, j: Job)
    requires QueueOk(g) && !g.q.stopped && j in g.q.jobs
    ensures !InFlight(g.worker, j.clientIp) && Current(g.q, j)
  {
    assert Current(g.q, j);
    assert j == Job(j.clientIp, g.q.pending[j.clientIp]);
    assert Queued(g.q, j.clientIp);
  }

  lemma ForgetKeepsQueue(g: Geo, g': Geo)
    requires QueueOk(g) && !g.worker.Idle? && !g.worker.Updating?
    requires g'.q == Forget(g.q, g.worker.job.clientIp) && (g'.worker.Idle? || g'.worker.Updating?)
    ensures QueueOk(g')
  {
    if !g.q.stopped {
      var ip := g.worker.job.clientIp;
      forall j | j in g'.q.jobs
        ensures g'.q.jobs[j] == 1 && Current(g'.q, j)
      {
        QueuedIsNotInFlight(g, j);
      }
      forall other | other in g'.q.pending
        ensures InFlight(g'.worker, other) <==> !Queued(g'.q, other)
      {
        assert Queued(g'.q, other) <==> Queued(g.q, other);
      }
    }
  }

  lemma PutBackKeepsQueue(g: Geo, g': Geo)
    requires QueueOk(g) && Next(g, PutBack, g')
    ensures QueueOk(g')
  {
    if !g.q.stopped {
      var ip := g.worker.job.clientIp;
      forall j | j in g.q.jobs
        ensures g.q.jobs[j] == 1 && Current(g.q, j) && j.clientIp != ip
      {
        QueuedIsNotInFlight(g, j);
      }
      forall other | other in g.q.pending && other != ip
        ensures Queued(g.q, other)
      {
      }
      assert |g.q.jobs| <= MAX_JOBS && g'.worker.Idle?;
      assert g'.q == Reschedule(g.q, ip, g.worker.retryAt);
      hide QueueOk, Next;
      RescheduledOk(g.q, ip, g.worker.retryAt);
      AllQueuedIsOk(g');
    }
  }

  /** A queue whose pending addresses are exactly the queued ones. */
  ghost predicate AllQueued(q: Queue) {
    && |q.jobs| <= MAX_JOBS
    && (forall j :: j in q.jobs ==> q.jobs[j] == 1 && Current(q, j))
    && (forall ip :: ip in q.pending ==> Queued(q, ip))
  }

  lemma AllQueuedIsOk(g: Geo)
    requires g.worker.Idle? && AllQueued(g.q)
    ensures QueueOk(g)
  {
  }

  lemma RescheduledOk(q: Queue, ip: Ip, retryAt: int)
    requires !q.stopped && |q.jobs| <= MAX_JOBS
    requires forall j :: j in q.jobs ==> q.jobs[j] == 1 && Current(q, j) && j.clientIp != ip
    requires forall other :: other in q.pending && other != ip ==> Queued(q, other)
    ensures AllQueued(Reschedule(q, ip, retryAt))
  {
    var job := Job(ip, retryAt);
    assert job !in q.jobs;
  }

  lemma QuietKeepsQueue(g: Geo, step: Step, g': Geo)
    requires QueueOk(g) && Next(g, step, g') && g'.q.jobs == g.q.jobs && g'.q.pending == g.q.pending
        && g'.q.stopped == g.q.stopped
    requires forall ip :: InFlight(g'.worker, ip) <==> InFlight(g.worker, ip)
    requires !g'.worker.Idle? && !g'.worker.Updating?
             ==> !g.worker.Idle? && !g.worker.Updating? && g'.worker.job == g.worker.job
    ensures QueueOk(g')
  {
    if !g.q.stopped {
      forall ip | ip in g'.q.pending
        ensures InFlight(g'.worker, ip) <==> !Queued(g'.q, ip)
      {
        assert Queued(g'.q, ip) <==> Queued(g.q, ip);
      }
    }
  }

  lemma StepKeepsQueue(g: Geo, step: Step, g': Geo)
    requires QueueOk(g) && Next(g, step, g')
    ensures QueueOk(g')
  {
    match step
    case DoEnqueue => EnqueueKeepsQueue(g, g');
    case TakeJob(job) => TakeKeepsQueue(g, job, g');
    case PutBack => PutBackKeepsQueue(g, g');
    case GiveUp => ForgetKeepsQueue(g, g');
    case Decide =>
      if g.worker.answer.resolved || !g.worker.answer.retryable {
        ForgetKeepsQueue(g, g');
      } else {
        QuietKeepsQueue(g, step, g');
      }
    case StopWorker =>
    case StaleTest =>
      if !g.q.stopped {
        assert Current(g.q, g.worker.job);
        QuietKeepsQueue(g, step, g');
      }
    case Update => QuietKeepsQueue(g, step, g');
    case _ => QuietKeepsQueue(g, step, g');
  }

  // ---- attribution ------------------------------------------------------------------------

  lemma ResolveKeepsAttribution(g: Geo, answer: Lookup, g': Geo)
    requires AttributionOk(g) && Next(g, Resolve(answer), g')
    ensures AttributionOk(g')
  {
    var ip := g.worker.job.clientIp;
    assert ip in g.cache ==> g'.cache == g.cache;
    forall d | d in g'.net
      ensures Attributed(g', g'.net[d], g'.lastIp[d])
    {
      assert Attributed(g, g.net[d], g.lastIp[d]);
    }
  }

  lemma UpdateKeepsAttribution(g: Geo, g': Geo)
    requires AttributionOk(g) && Next(g, Update, g')
    ensures AttributionOk(g')
  {
    forall d | d in g'.net
      ensures Attributed(g', g'.net[d], g'.lastIp[d])
    {
      assert Attributed(g, g.net[d], g.lastIp[d]);
    }
  }

  /** Steps that touch neither the information nor the cache. */
  predicate TouchesNoInfo(step: Step) {
    !step.Update? && !step.Resolve? && !step.Login? && !step.Logout?
  }

  lemma QuietFrame(g: Geo, step: Step, g': Geo)
    requires Next(g, step, g') && TouchesNoInfo(step)
    ensures g'.cache == g.cache && g'.net == g.net && g'.lastIp == g.lastIp
    ensures g'.worker.Updating? ==>
              g'.worker == g.worker
              || (g.worker.Deciding? && g.worker.answer.resolved
                  && g'.worker == Updating(g.worker.job, g.worker.answer.info))
    ensures g'.worker.Answered? || g'.worker.Deciding? ==>
              g'.worker == g.worker
              || (g.worker.Answered? && g'.worker == Deciding(g.worker.job, g.worker.answer))
  {
    hide SomeoneHas, Enqueue, Forget, Reschedule, Pop, Stop, Backoff.Delay, CountFailure;
  }

  lemma QuietKeepsAttribution(g: Geo, step: Step, g': Geo)
    requires AttributionOk(g) && Next(g, step, g') && TouchesNoInfo(step)
    ensures AttributionOk(g')
  {
    hide Next;
    QuietFrame(g, step, g');
    forall d | d in g'.net
      ensures Attributed(g', g'.net[d], g'.lastIp[d])
    {
      assert Attributed(g, g.net[d], g.lastIp[d]);
    }
  }

  lemma PresenceKeepsAttribution(g: Geo, step: Step, g': Geo)
    requires AttributionOk(g) && Next(g, step, g') && (step.Login? || step.Logout?)
    ensures AttributionOk(g')
  {
    assert g'.cache == g.cache && g'.worker == g.worker;
    forall d | d in g'.net
      ensures Attributed(g', g'.net[d], g'.lastIp[d])
    {
      assert d in g.net ==> Attributed(g, g.net[d], g.lastIp[d]);
    }
  }

  lemma StepKeepsAttribution(g: Geo, step: Step, g': Geo)
    requires AttributionOk(g) && Next(g, step, g')
    ensures AttributionOk(g')
  {
    hide AttributionOk, Next;
    match step
    case Resolve(answer) => ResolveKeepsAttribution(g, answer, g');
    case Update => UpdateKeepsAttribution(g, g');
    case Login(_, _) => PresenceKeepsAttribution(g, step, g');
    case Logout(_) => PresenceKeepsAttribution(g, step, g');
    case _ => QuietKeepsAttribution(g, step, g');
  }

  // ---- nobody is missed -------------------------------------------------------------------

  lemma UpdateMissesNobody(g: Geo, g': Geo)
    requires AttributionOk(g) && NobodyMissed(g) && Next(g, Update, g')
    ensures NobodyMissed(g')
  {
    forall d | d in g'.net && g'.net[d].location == "" && g'.net[d].clientIp != ""
      ensures SeenTo(g', g'.net[d].clientIp) || g'.net[d].clientIp in g'.dropped
    {
      var ip := g.worker.job.clientIp;
      assert g.worker.info.location != "";
      assert g'.net[d] == g.net[d];
    }
  }

  predicate SeenToOrDropped(g: Geo, ip: Ip) {
    SeenTo(g, ip) || ip in g.dropped
  }

  lemma EnqueueKeepsSeeing(g: Geo, g': Geo, ip: Ip)
    requires Next(g, DoEnqueue, g') && SeenToOrDropped(g, ip)
    ensures SeenToOrDropped(g', ip)
  {
  }

  /** The steps that act on a lookup. */
  lemma WorkKeepsSeeing(g: Geo, step: Step, g': Geo, ip: Ip)
    requires Next(g, step, g') && (step.Decide? || step.PutBack? || step.GiveUp? || step.StopWorker?)
    requires SeenToOrDropped(g, ip)
    ensures SeenToOrDropped(g', ip)
  {
    hide Backoff.Delay, SomeoneHas;
    match step
    case Decide =>
    case PutBack =>
    case GiveUp =>
    case StopWorker =>
  }

  /** The other steps leave pending and dropped addresses alone. */
  lemma QuietKeepsSeeing(g: Geo, step: Step, g': Geo, ip: Ip)
    requires Next(g, step, g') && SeenToOrDropped(g, ip)
    requires !step.Decide? && !step.PutBack? && !step.GiveUp? && !step.StopWorker? && !step.DoEnqueue? && !step.Update?
    ensures SeenToOrDropped(g', ip)
  {
    hide Backoff.Delay, SomeoneHas, Current;
    assert g'.q.pending == g.q.pending && g'.dropped == g.dropped;
  }

  /** No step but the update lets go of an address without dropping it. */
  lemma StepKeepsSeeing(g: Geo, step: Step, g': Geo, ip: Ip)
    requires Next(g, step, g') && !step.Update? && SeenToOrDropped(g, ip)
    ensures SeenToOrDropped(g', ip)
  {
    hide Next, SeenToOrDropped;
    match step
    case DoEnqueue => EnqueueKeepsSeeing(g, g', ip);
    case Decide => WorkKeepsSeeing(g, step, g', ip);
    case PutBack => WorkKeepsSeeing(g, step, g', ip);
    case GiveUp => WorkKeepsSeeing(g, step, g', ip);
    case StopWorker => WorkKeepsSeeing(g, step, g', ip);
    case _ => QuietKeepsSeeing(g, step, g', ip);
  }

  predicate Waits(net: map<Id, Info>, d: Id) {
    d in net && net[d].location == "" && net[d].clientIp != ""
  }

  /** A device that waits after a step waited before it, for the same address, or has just logged in. */
  lemma WaitedOrLoggedIn(g: Geo, step: Step, g': Geo, d: Id)
    requires Next(g, step, g') && !step.Update? && Waits(g'.net, d)
    ensures (Waits(g.net, d) && g.net[d] == g'.net[d]) || AboutToEnqueue(g'.io, g'.net[d].clientIp)
  {
    match step
    case Login(_, _) =>
    case Logout(_) =>
    case Update =>
    case _ => assert g'.net == g.net;
  }

  lemma StillSeenTo(g: Geo, step: Step, g': Geo, d: Id)
    requires NobodyMissed(g) && Next(g, step, g') && !step.Update? && Waits(g'.net, d)
    ensures SeenToOrDropped(g', g'.net[d].clientIp)
  {
    hide Next, AboutToEnqueue;
    WaitedOrLoggedIn(g, step, g', d);
    if Waits(g.net, d) && g.net[d] == g'.net[d] {
      assert SeenToOrDropped(g, g.net[d].clientIp);
      hide NobodyMissed, SeenToOrDropped;
      StepKeepsSeeing(g, step, g', g.net[d].clientIp);
    }
  }

  lemma StepMissesNobody(g: Geo, step: Step, g': Geo)
    requires AttributionOk(g) && NobodyMissed(g) && Next(g, step, g')
    ensures NobodyMissed(g')
  {
    hide Next, AttributionOk, AboutToEnqueue, SeenTo;
    if step.Update? {
      UpdateMissesNobody(g, g');
    } else {
      forall d | Waits(g'.net, d)
        ensures SeenToOrDropped(g', g'.net[d].clientIp)
      {
        StillSeenTo(g, step, g', d);
      }
    }
  }

  // ---- failure counts ---------------------------------------------------------------------

  /** The job's own count, when the step is done with it. */
  lemma OthersKeepFailures(g: Geo, g': Geo, job: Ip)
    requires FailuresOk(g) && (job in g'.q.failures ==> CountKept(g', job))
    requires forall ip :: ip in g'.q.failures && ip != job ==>
               ip in g.q.failures && g'.q.failures[ip] == g.q.failures[ip]
               && (JustFailed(g.worker, ip) <==> JustFailed(g'.worker, ip))
               && (ip in g.q.pending <==> ip in g'.q.pending) && (ip in g.refused <==> ip in g'.refused)
    requires g'.worker.Failed? && !g'.q.stopped ==> g'.worker.failures == FailuresOf(g'.q, g'.worker.job.clientIp)
    ensures FailuresOk(g')
  {
    forall ip | ip in g'.q.failures
      ensures CountKept(g', ip)
    {
      if ip != job {
        assert CountKept(g, ip);
      }
    }
  }

  lemma DecideKeepsFailures(g: Geo, g': Geo)
    requires FailuresOk(g) && Next(g, Decide, g')
    ensures FailuresOk(g')
  {
    OthersKeepFailures(g, g', g.worker.job.clientIp);
  }

  lemma PutBackKeepsFailures(g: Geo, g': Geo)
    requires FailuresOk(g) && Next(g, PutBack, g')
    ensures FailuresOk(g')
  {
    var job := g.worker.job.clientIp;
    assert job in g.q.failures ==> CountKept(g, job);
    OthersKeepFailures(g, g', job);
  }

  lemma GiveUpKeepsFailures(g: Geo, g': Geo)
    requires FailuresOk(g) && Next(g, GiveUp, g')
    ensures FailuresOk(g')
  {
    OthersKeepFailures(g, g', g.worker.job.clientIp);
  }

  lemma ChooseKeepsFailures(g: Geo, base: nat, cap: nat, g': Geo)
    requires FailuresOk(g) && Next(g, ChooseRetry(base, cap), g')
    ensures FailuresOk(g')
  {
    hide Backoff.Delay, SomeoneHas;
    var job := g.worker.job.clientIp;
    assert job in g.q.failures ==> CountKept(g, job);
    OthersKeepFailures(g, g', job);
  }

  /** Steps that neither count a failure nor settle what becomes of it. */
  predicate SettlesNoFailure(step: Step) {
    !step.Decide? && !step.PutBack? && !step.GiveUp? && !step.ChooseRetry? && !step.StopWorker?
  }

  lemma FailureFrame(g: Geo, step: Step, g': Geo)
    requires Next(g, step, g') && SettlesNoFailure(step)
    ensures g'.q.failures == g.q.failures && g.refused == g'.refused && g'.q.stopped == g.q.stopped
    ensures g.q.pending.Keys <= g'.q.pending.Keys
    ensures g.worker.Failed? || g.worker.Retrying? || g.worker.GivingUp? ==> g'.worker == g.worker
    ensures g'.worker.Failed? ==> g'.worker == g.worker
  {
    hide SomeoneHas, UpdateNet, Current, Backoff.Delay;
  }

  lemma QuietKeepsFailures(g: Geo, step: Step, g': Geo)
    requires FailuresOk(g) && Next(g, step, g') && SettlesNoFailure(step)
    ensures FailuresOk(g')
  {
    hide Next;
    FailureFrame(g, step, g');
    forall ip | ip in g'.q.failures
      ensures CountKept(g', ip)
    {
      assert CountKept(g, ip);
    }
  }

  lemma StepKeepsFailures(g: Geo, step: Step, g': Geo)
    requires FailuresOk(g) && Next(g, step, g')
    ensures FailuresOk(g')
  {
    hide FailuresOk, Next;
    match step
    case Decide => DecideKeepsFailures(g, g');
    case PutBack => PutBackKeepsFailures(g, g');
    case GiveUp => GiveUpKeepsFailures(g, g');
    case ChooseRetry(base, cap) => ChooseKeepsFailures(g, base, cap, g');
    case StopWorker => StopKeepsFailures(g, g');
    case _ => QuietKeepsFailures(g, step, g');
  }

  lemma StopKeepsFailures(g: Geo, g': Geo)
    requires Next(g, StopWorker, g')
    ensures FailuresOk(g')
  {
  }

  // ---- dropped lookups --------------------------------------------------------------------

  lemma StepKeepsDropped(g: Geo, step: Step, g': Geo)
    requires DroppedOk(g) && Next(g, step, g')
    ensures DroppedOk(g')
  {
    match step
    case DoEnqueue =>
    case Decide =>
    case PutBack =>
    case GiveUp =>
    case StopWorker =>
    case _ =>
  }

  lemma InitIsFine(g: Geo)
    requires Init(g)
    ensures Invariant(g)
  {
  }

  /** In every state of every interleaving. */
  lemma {:induction false} RunsAreSafe(g: Geo, p: Path)
    requires Init(g) && Walks(g, p)
    ensures Invariant(EndOf(g, p))
  {
    hide Init, Next, QueueOk, AttributionOk, NobodyMissed, FailuresOk, DroppedOk;
    match p
    case Here => InitIsFine(g);
    case Go(before, step, to) =>
      RunsAreSafe(g, before);
      StepKeepsQueue(EndOf(g, before), step, to);
      StepKeepsAttribution(EndOf(g, before), step, to);
      StepMissesNobody(EndOf(g, before), step, to);
      StepKeepsFailures(EndOf(g, before), step, to);
      StepKeepsDropped(EndOf(g, before), step, to);
  }

  /** In no run does the stale test fire before stop: a job the worker took is the one its address is pending for. */
  lemma StaleTestNeverFires(g: Geo, p: Path)
    requires Init(g) && Walks(g, p) && EndOf(g, p).worker.Popped? && !EndOf(g, p).q.stopped
    ensures Current(EndOf(g, p).q, EndOf(g, p).worker.job)
  {
    hide Init, Walks, AttributionOk, NobodyMissed, FailuresOk, DroppedOk;
    RunsAreSafe(g, p);
  }

  /** In every run, until stop, a device without a location has its address, which is that of its latest login, seen to,
      or its latest lookup was dropped and is not pending any more. */
  lemma WaitingMeans(g: Geo, p: Path, d: Id)
    requires Init(g) && Walks(g, p) && !EndOf(g, p).q.stopped
    requires d in EndOf(g, p).net && EndOf(g, p).net[d].location == "" && EndOf(g, p).net[d].clientIp != ""
    ensures var e := EndOf(g, p); var ip := e.net[d].clientIp;
            && d in e.lastIp && ip == e.lastIp[d]
            && (SeenTo(e, ip) || (ip in e.dropped && ip !in e.q.pending))
  {
    RunsAreSafe(g, p);
    hide Init, Walks, QueueOk, FailuresOk;
    var e := EndOf(g, p);
    assert Attributed(e, e.net[d], e.lastIp[d]);
  }

  // ---- the give-up race -------------------------------------------------------------------

  /** No device waits for an address that nobody sees to. */
  ghost predicate AllSeenTo(g: Geo) {
    forall d :: d in g.net && g.net[d].location == "" && g.net[d].clientIp != "" ==> SeenTo(g, g.net[d].clientIp)
  }

  /** The test "does any device have this address" and the erase that follows it are two critical sections.
      Giving up keeps everybody seen to exactly when no waiting device has the address by then, or the login of
      one is just about to enqueue it. */
  lemma GiveUpIsHarmlessIff(g: Geo, g': Geo)
    requires AllSeenTo(g) && Next(g, GiveUp, g')
    ensures var ip := g.worker.job.clientIp;
            AllSeenTo(g') <==>
              (ip == "" || AboutToEnqueue(g.io, ip) || forall d :: d in g.net ==>
                  g.net[d].clientIp != ip || g.net[d].location != "")
  {
    var ip := g.worker.job.clientIp;
    if d :| d in g.net && g.net[d].clientIp == ip && g.net[d].location == "" {
      assert ip == "" || (SeenTo(g', ip) <==> AboutToEnqueue(g.io, ip));
    }
    forall other | other != ip && SeenTo(g, other)
      ensures SeenTo(g', other)
    {
    }
  }

  lemma OneStep(g: Geo, p: Path, step: Step, to: Geo) returns (q: Path)
    requires Walks(g, p) && Next(EndOf(g, p), step, to)
    ensures Walks(g, q) && q == Go(p, step, to)
  {
    hide Next;
    q := Go(p, step, to);
  }

  /** The model after a login: the device's information is set and, unless it has no address, a lookup is asked for. */
  function LoggedIn(g: Geo, d: Id, ip: Ip): Geo {
    var located := g.(net := g.net[d := Bare(ip)], lastIp := g.lastIp[d := ip]);
    if ip == "" then located
    else located.(q := Enqueue(g.q, ip, g.clock),
               dropped := if Accepts(g.q, ip) then g.dropped - {ip}
                          else if ip in g.q.pending then g.dropped else g.dropped + {ip})
  }

  /** The walk is a login and what follows it at once: the clock is read and a lookup asked for, if there is an
      address. */
  predicate IsLogin(p: Path, d: Id, ip: Ip) {
    if ip == "" then p.Go? && p.before == Here && p.step == Login(d, ip)
    else
      && p.Go? && p.before.Go? && p.before.before.Go? && p.before.before.before == Here
      && p.before.before.step == Login(d, ip) && p.before.step == ReadClock && p.step == DoEnqueue
  }

  /** A login with an address is three steps of the model, one without is one. */
  lemma LoginWalks(g: Geo, d: Id, ip: Ip) returns (p: Path)
    requires g.io.Quiet? && d != ""
    ensures Walks(g, p) && IsLogin(p, d, ip) && EndOf(g, p) == LoggedIn(g, d, ip)
  {
    if ip == "" {
      assert Next(g, Login(d, ip), LoggedIn(g, d, ip));
      p := OneStep(g, Here, Login(d, ip), LoggedIn(g, d, ip));
    } else {
      var g1 := g.(net := g.net[d := Bare(ip)], lastIp := g.lastIp[d := ip], io := Stored(ip));
      var g2 := g1.(io := Timed(ip, g1.clock));
      assert Next(g, Login(d, ip), g1) && Next(g1, ReadClock, g2) && Next(g2, DoEnqueue, LoggedIn(g, d, ip));
      hide Next;
      p := OneStep(g, Here, Login(d, ip), g1);
      p := OneStep(g, p, ReadClock, g2);
      p := OneStep(g, p, DoEnqueue, LoggedIn(g, d, ip));
    }
  }

  lemma {:induction false} WalkOn(g: Geo, p: Path, q: Path) returns (r: Path)
    requires Walks(g, p) && Walks(EndOf(g, p), q)
    ensures Walks(g, r) && EndOf(g, r) == EndOf(EndOf(g, p), q)
    decreases q
  {
    hide Next;
    match q
    case Here => r := p;
    case Go(before, step, to) =>
      r := WalkOn(g, p, before);
      r := Go(r, step, to);
  }

  /** A walk that loses a lookup: device `b` logs in from an address while the worker is giving that address up. */
  lemma GiveUpRace(g: Geo, b: Id) returns (p: Path)
    requires QueueOk(g) && !g.q.stopped && g.worker.GivingUp? && g.io.Quiet? && b != "" && g.worker.job.clientIp != ""
    ensures Walks(g, p)
    ensures var ip := g.worker.job.clientIp;
            b in EndOf(g, p).net && EndOf(g, p).net[b] == Bare(ip) && !SeenTo(EndOf(g, p), ip)
  {
    var ip := g.worker.job.clientIp;
    assert Current(g.q, g.worker.job);
    p := LoginWalks(g, b, ip);
    var g1 := EndOf(g, p);
    var g2 := g1.(q := Forget(g1.q, ip), worker := Idle, dropped := g1.dropped + {ip}, refused := g1.refused - {ip});
    assert Next(g1, GiveUp, g2);
    p := Go(p, GiveUp, g2);
  }

  /** The worker takes the only job and checks it while its device logs out. */
  lemma LeavesTooEarly(g: Geo, a: Id, ip: Ip) returns (p: Path)
    requires g.worker.Idle? && g.net.Keys == {a} && !g.q.stopped
    requires g.q.jobs == multiset{Job(ip, g.clock)} && ip in g.q.pending && g.q.pending[ip] == g.clock
    ensures Walks(g, p) && EndOf(g, p).worker == GivingUp(Job(ip, g.clock))
    ensures !EndOf(g, p).q.stopped && EndOf(g, p).io == g.io
  {
    var job := Job(ip, g.clock);
    var g1 := g.(q := Pop(g.q, job), worker := Popped(job));
    var g2 := g1.(worker := Checked(job));
    var g3 := g2.(net := g2.net - {a}, lastIp := g2.lastIp - {a});
    var g4 := g3.(worker := GivingUp(job));
    assert !SomeoneHas(g3.net, ip);
    assert Next(g, TakeJob(job), g1) && Next(g1, StaleTest, g2) && Next(g2, Logout(a), g3) && Next(g3, FirstLook, g4);
    hide Next;
    p := OneStep(g, Here, TakeJob(job), g1);
    p := OneStep(g, p, StaleTest, g2);
    p := OneStep(g, p, Logout(a), g3);
    p := OneStep(g, p, FirstLook, g4);
  }

  /** From a fresh start the whole race can happen: a device logs in and leaves, its lookup is given up, and the device
      that logs in from the same address meanwhile is forgotten. */
  lemma LookupCanBeLost(g: Geo, a: Id, b: Id, ip: Ip) returns (p: Path)
    requires Init(g) && a != "" && b != "" && ip != ""
    ensures Walks(g, p)
    ensures b in EndOf(g, p).net && EndOf(g, p).net[b] == Bare(ip) && !SeenTo(EndOf(g, p), ip)
  {
    hide Walks, Next, SeenTo, QueueOk, AttributionOk, NobodyMissed, FailuresOk, DroppedOk;
    p := LoginWalks(g, a, ip);
    var q := LeavesTooEarly(EndOf(g, p), a, ip);
    p := WalkOn(g, p, q);
    RunsAreSafe(g, p);
    q := GiveUpRace(EndOf(g, p), b);
    p := WalkOn(g, p, q);
  }
}
