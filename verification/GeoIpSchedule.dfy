/** When the lookups run and what becomes of their answers, read off the steps of a run alone. */
module GeoIpSchedule {
  import opened Identity
  import opened Options
  import Backoff
  import opened GeoIpModel
  import GeoIpSafety

  // ---- read off the steps -----------------------------------------------------------------

  /** The time the clock was moved to last. */
  function Clock(start: int, p: Path): int {
    match p
    case Here => start
    case Go(before, step, _) => if step.Tick? then step.now else Clock(start, before)
  }

  predicate Stopped(p: Path) {
    p.Go? && (p.step.StopWorker? || Stopped(p.before))
  }

  /** The address whose login is about to ask for a lookup, and the time it read for it. */
  function Asking(p: Path): Ip {
    match p
    case Here => ""
    case Go(before, step, _) =>
      match step
      case Login(_, ip) => ip
      case DoEnqueue => ""
      case _ => Asking(before)
  }

  function AskedAt(start: int, p: Path): int {
    match p
    case Here => start
    case Go(before, step, _) => if step.ReadClock? then Clock(start, before) else AskedAt(start, before)
  }

  /** The job the worker took last, and the answer it got last. */
  function Held(p: Path): Job {
    match p
    case Here => Job("", 0)
    case Go(before, step, _) => if step.TakeJob? then step.job else Held(before)
  }

  function Reply(p: Path): Lookup {
    match p
    case Here => Lookup(Info("", "", "", "", ""), false, false)
    case Go(before, step, _) => if step.Resolve? then step.answer else Reply(before)
  }

  /** An answer that may come out differently later. */
  predicate MayRetry(answer: Lookup) {
    !answer.resolved && answer.retryable
  }

  /** The lookups of the address that failed in succession: since one that was answered for good, or given up. */
  function Failures(p: Path, ip: Ip): nat {
    match p
    case Here => 0
    case Go(before, step, _) =>
      match step
      case StopWorker => 0
      case GiveUp => if Held(before).clientIp == ip then 0 else Failures(before, ip)
      case Decide =>
        if Held(before).clientIp != ip then Failures(before, ip)
        else if MayRetry(Reply(before)) then Failures(before, ip) + 1
        else 0
      case _ => Failures(before, ip)
  }

  /** The time chosen last for another try: so much after the failure as its place in the succession says. */
  function RetryAt(start: int, p: Path): int {
    match p
    case Here => start
    case Go(before, step, _) =>
      if step.ChooseRetry? then
        Clock(start, before) + Backoff.Delay(step.base, step.cap, Failures(before, Held(before).clientIp))
      else RetryAt(start, before)
  }

  predicate HasRoom(stopped: bool, waiting: int) {
    !stopped && waiting < 1024
  }

  /** The jobs in the queue, which takes no more than 1024. */
  function Waiting(start: int, p: Path): int
  {
    match p
    case Here => 0
    case Go(before, step, _) =>
      var was := Waiting(start, before);
      match step
      case StopWorker => 0
      case TakeJob(_) => was - 1
      case DoEnqueue =>
        if Planned(start, before, Asking(before)).None? && HasRoom(Stopped(before), was) then was + 1 else was
      case PutBack => if HasRoom(Stopped(before), was) then was + 1 else was
      case _ => was
  }

  /** The time for which a lookup of the address is planned, if one is: from the request of a login, which an earlier
      plan makes unnecessary, or from the retry, until it is answered for good or given up. */
  function Planned(start: int, p: Path, ip: Ip): Option<int>
  {
    match p
    case Here => None
    case Go(before, step, _) =>
      var was := Planned(start, before, ip);
      match step
      case StopWorker => None
      case DoEnqueue =>
        if ip == Asking(before) && was.None? && HasRoom(Stopped(before), Waiting(start, before)) then
          Some(AskedAt(start, before))
        else was
      case PutBack =>
        if ip != Held(before).clientIp then was
        else if HasRoom(Stopped(before), Waiting(start, before)) then Some(RetryAt(start, before))
        else None
      case GiveUp => if ip == Held(before).clientIp then None else was
      case Decide => if ip == Held(before).clientIp && !MayRetry(Reply(before)) then None else was
      case _ => was
  }

  /** The network information of a device: the bare address of its login, then what was answered about that address. */
  function InfoOf(p: Path, d: Id): Option<Info> {
    match p
    case Here => None
    case Go(before, step, _) =>
      var was := InfoOf(before, d);
      match step
      case Login(who, ip) => if who == d then Some(Info(ip, "", "", "", "")) else was
      case Logout(who) => if who == d then None else was
      case Update =>
        if was.Some? && was.value.clientIp == Held(before).clientIp != "" then Some(Reply(before).info) else was
      case _ => was
  }

  /** The last answer about the address that had a location. */
  function Cached(p: Path, ip: Ip): Option<Info> {
    match p
    case Here => None
    case Go(before, step, _) =>
      if step.Resolve? && Held(before).clientIp == ip && step.answer.info.location != "" then Some(step.answer.info)
      else Cached(before, ip)
  }

  ghost predicate Wanted(p: Path, ip: Ip) {
    ip != "" && exists d :: InfoOf(p, d).Some? && InfoOf(p, d).value.clientIp == ip
  }

  // ---- the state of the model is what the steps say ---------------------------------------

  /** The clock, the login thread and the worker. */
  ghost predicate ThreadsFollow(start: int, p: Path, e: Geo) {
    && e.clock == Clock(start, p)
    && (e.io.Quiet? <==> Asking(p) == "") && (!e.io.Quiet? ==> e.io.ip == Asking(p))
    && (e.io.Timed? ==> e.io.runAt == AskedAt(start, p))
    && (!e.worker.Idle? ==> e.worker.job == Held(p))
    && (e.worker.Answered? || e.worker.Deciding? ==> e.worker.answer == Reply(p))
    && (e.worker.Updating? ==> e.worker.info == Reply(p).info)
    && (e.worker.Retrying? && !Stopped(p) ==> e.worker.retryAt == RetryAt(start, p))
  }

  ghost predicate FailuresFollow(p: Path, e: Geo) {
    !Stopped(p) ==>
      && (forall ip :: FailuresOf(e.q, ip) == Failures(p, ip))
      && (e.worker.Failed? ==> e.worker.failures == Failures(p, Held(p).clientIp))
  }

  predicate PlanIs(start: int, p: Path, q: Queue, ip: Ip) {
    Planned(start, p, ip) == if ip in q.pending then Some(q.pending[ip]) else None
  }

  ghost predicate QueueFollows(start: int, p: Path, e: Geo) {
    && e.q.stopped == Stopped(p) && |e.q.jobs| == Waiting(start, p)
    && forall ip :: PlanIs(start, p, e.q, ip)
  }

  predicate InfoIs(p: Path, net: map<Id, Info>, d: Id) {
    InfoOf(p, d) == if d in net then Some(net[d]) else None
  }

  predicate CacheIs(p: Path, cache: map<Ip, Info>, ip: Ip) {
    Cached(p, ip) == if ip in cache then Some(cache[ip]) else None
  }

  ghost predicate AnswersFollow(p: Path, e: Geo) {
    (forall d :: InfoIs(p, e.net, d)) && forall ip :: CacheIs(p, e.cache, ip)
  }

  ghost predicate Follows(start: int, p: Path, e: Geo) {
    ThreadsFollow(start, p, e) && FailuresFollow(p, e) && QueueFollows(start, p, e) && AnswersFollow(p, e)
  }

  lemma ClockMoves(start: int, p: Path, e: Geo, step: Step, to: Geo)
    requires ThreadsFollow(start, p, e) && Next(e, step, to)
    ensures to.clock == Clock(start, Go(p, step, to))
    ensures (to.io.Quiet? <==> Asking(Go(p, step, to)) == "") && (!to.io.Quiet? ==> to.io.ip == Asking(Go(p, step, to)))
    ensures to.io.Timed? ==> to.io.runAt == AskedAt(start, Go(p, step, to))
  {
    hide SomeoneHas, UpdateNet, Backoff.Delay, Enqueue, Reschedule, CacheAfter, Current, Forget, CountFailure,
         ResolverAnswers, RetryAt, Held, Reply;
    match step
    case Login(_, _) =>
    case ReadClock =>
    case DoEnqueue =>
    case _ =>
  }

  lemma WorkerMoves(start: int, p: Path, e: Geo, step: Step, to: Geo)
    requires ThreadsFollow(start, p, e) && Next(e, step, to)
    requires Stopped(p) || FailuresFollow(p, e)
    ensures !to.worker.Idle? ==> to.worker.job == Held(Go(p, step, to))
    ensures to.worker.Answered? || to.worker.Deciding? ==> to.worker.answer == Reply(Go(p, step, to))
    ensures to.worker.Updating? ==> to.worker.info == Reply(Go(p, step, to)).info
    ensures to.worker.Retrying? && !Stopped(Go(p, step, to)) ==> to.worker.retryAt == RetryAt(start, Go(p, step, to))
  {
    hide SomeoneHas, UpdateNet, Backoff.Delay, Enqueue, Reschedule, CacheAfter, Current, Forget, CountFailure,
         ResolverAnswers, Clock, Asking, AskedAt;
    match step
    case ChooseRetry(_, _) =>
    case Decide =>
    case _ =>
  }

  lemma StepThreads(start: int, p: Path, e: Geo, step: Step, to: Geo)
    requires Follows(start, p, e) && Next(e, step, to)
    ensures ThreadsFollow(start, Go(p, step, to), to)
  {
    hide Next, QueueFollows, FailuresFollow, AnswersFollow, Clock, Asking, AskedAt, Held, Reply, RetryAt;
    ClockMoves(start, p, e, step, to);
    WorkerMoves(start, p, e, step, to);
  }

  lemma DecideCounts(start: int, p: Path, e: Geo, to: Geo)
    requires ThreadsFollow(start, p, e) && FailuresFollow(p, e) && Next(e, Decide, to)
    ensures FailuresFollow(Go(p, Decide, to), to)
  {
    assert !Stopped(p) ==> forall ip :: FailuresOf(e.q, ip) == Failures(p, ip);
  }

  lemma GiveUpCounts(start: int, p: Path, e: Geo, to: Geo)
    requires ThreadsFollow(start, p, e) && FailuresFollow(p, e) && Next(e, GiveUp, to)
    ensures FailuresFollow(Go(p, GiveUp, to), to)
  {
    assert !Stopped(p) ==> forall ip :: FailuresOf(e.q, ip) == Failures(p, ip);
  }

  lemma CountsStay(e: Geo, step: Step, to: Geo)
    requires Next(e, step, to) && !step.Decide? && !step.GiveUp? && !step.StopWorker?
    ensures to.q.failures == e.q.failures && (to.worker.Failed? ==> to.worker == e.worker && !step.TakeJob?)
  {
    hide SomeoneHas, UpdateNet, Backoff.Delay, CacheAfter, Current, ResolverAnswers;
  }

  /** The other steps leave the counts alone. */
  lemma OthersCount(p: Path, e: Geo, step: Step, to: Geo)
    requires FailuresFollow(p, e) && Next(e, step, to)
    requires !step.Decide? && !step.GiveUp? && !step.StopWorker?
    ensures FailuresFollow(Go(p, step, to), to)
  {
    hide Next;
    CountsStay(e, step, to);
    assert !Stopped(p) ==> forall ip :: FailuresOf(to.q, ip) == FailuresOf(e.q, ip);
  }

  lemma StepFailures(start: int, p: Path, e: Geo, step: Step, to: Geo)
    requires Follows(start, p, e) && Next(e, step, to)
    ensures FailuresFollow(Go(p, step, to), to)
  {
    hide QueueFollows, AnswersFollow;
    match step
    case Decide => DecideCounts(start, p, e, to);
    case GiveUp => GiveUpCounts(start, p, e, to);
    case StopWorker =>
    case _ => OthersCount(p, e, step, to);
  }

  lemma EnqueuePlans(start: int, p: Path, e: Geo, to: Geo)
    requires ThreadsFollow(start, p, e) && QueueFollows(start, p, e) && Next(e, DoEnqueue, to)
    ensures QueueFollows(start, Go(p, DoEnqueue, to), to)
  {
    hide Stopped, Asking, AskedAt;
    var q := Go(p, DoEnqueue, to);
    assert Stopped(q) == Stopped(p) by {
      StopStays(p, DoEnqueue, to);
    }
    assert PlanIs(start, p, e.q, Asking(p));
    forall ip
      ensures PlanIs(start, q, to.q, ip)
    {
      assert PlanIs(start, p, e.q, ip);
    }
  }

  lemma StopStays(p: Path, step: Step, to: Geo)
    ensures Stopped(Go(p, step, to)) <==> step.StopWorker? || Stopped(p)
  {
  }

  lemma PutBackPlans(start: int, p: Path, e: Geo, to: Geo)
    requires ThreadsFollow(start, p, e) && QueueFollows(start, p, e) && Next(e, PutBack, to)
    ensures QueueFollows(start, Go(p, PutBack, to), to)
  {
    hide Stopped, Held, RetryAt;
    var q := Go(p, PutBack, to);
    StopStays(p, PutBack, to);
    forall ip
      ensures PlanIs(start, q, to.q, ip)
    {
      assert PlanIs(start, p, e.q, ip);
    }
  }

  lemma Decided(e: Geo, to: Geo)
    requires Next(e, Decide, to)
    ensures e.worker.Deciding? && to.q.jobs == e.q.jobs && to.q.stopped == e.q.stopped
    ensures to.q.pending
         == if MayRetry(e.worker.answer) then e.q.pending else e.q.pending - {e.worker.job.clientIp}
  {
    hide FailuresOf;
  }

  lemma DecidePlans(start: int, p: Path, e: Geo, to: Geo)
    requires ThreadsFollow(start, p, e) && QueueFollows(start, p, e) && Next(e, Decide, to)
    ensures QueueFollows(start, Go(p, Decide, to), to)
  {
    hide Next, Stopped, Held, Reply, MayRetry, Clock, Asking, AskedAt, RetryAt;
    var q := Go(p, Decide, to);
    Decided(e, to);
    StopStays(p, Decide, to);
    forall ip
      ensures PlanIs(start, q, to.q, ip)
    {
      assert PlanIs(start, p, e.q, ip);
    }
  }

  lemma GiveUpPlans(start: int, p: Path, e: Geo, to: Geo)
    requires ThreadsFollow(start, p, e) && QueueFollows(start, p, e) && Next(e, GiveUp, to)
    ensures QueueFollows(start, Go(p, GiveUp, to), to)
  {
    hide Stopped, Held;
    var q := Go(p, GiveUp, to);
    StopStays(p, GiveUp, to);
    forall ip
      ensures PlanIs(start, q, to.q, ip)
    {
      assert PlanIs(start, p, e.q, ip);
    }
  }

  lemma TakePlans(start: int, p: Path, e: Geo, job: Job, to: Geo)
    requires QueueFollows(start, p, e) && Next(e, TakeJob(job), to)
    ensures QueueFollows(start, Go(p, TakeJob(job), to), to)
  {
    hide Stopped;
    var q := Go(p, TakeJob(job), to);
    StopStays(p, TakeJob(job), to);
    forall ip
      ensures PlanIs(start, q, to.q, ip)
    {
      assert PlanIs(start, p, e.q, ip);
    }
  }

  lemma StopPlans(start: int, p: Path, e: Geo, to: Geo)
    requires Next(e, StopWorker, to)
    ensures QueueFollows(start, Go(p, StopWorker, to), to)
  {
  }

  lemma OthersPlan(start: int, p: Path, e: Geo, step: Step, to: Geo)
    requires QueueFollows(start, p, e) && Next(e, step, to)
    requires !step.Decide? && !step.GiveUp? && !step.StopWorker? && !step.TakeJob? && !step.PutBack? && !step.DoEnqueue?
    ensures QueueFollows(start, Go(p, step, to), to)
  {
    hide SomeoneHas, UpdateNet, Backoff.Delay, CacheAfter, Current, ResolverAnswers, Stopped;
    assert to.q == e.q;
    hide Next;
    var q := Go(p, step, to);
    StopStays(p, step, to);
    forall ip
      ensures PlanIs(start, q, to.q, ip)
    {
      assert PlanIs(start, p, e.q, ip);
    }
  }

  lemma StepQueue(start: int, p: Path, e: Geo, step: Step, to: Geo)
    requires Follows(start, p, e) && Next(e, step, to)
    ensures QueueFollows(start, Go(p, step, to), to)
  {
    hide Next, QueueFollows, FailuresFollow, ThreadsFollow, AnswersFollow;
    match step
    case DoEnqueue => EnqueuePlans(start, p, e, to);
    case PutBack => PutBackPlans(start, p, e, to);
    case Decide => DecidePlans(start, p, e, to);
    case GiveUp => GiveUpPlans(start, p, e, to);
    case StopWorker => StopPlans(start, p, e, to);
    case TakeJob(job) => TakePlans(start, p, e, job, to);
    case _ => OthersPlan(start, p, e, step, to);
  }

  lemma NetMoves(start: int, p: Path, e: Geo, step: Step, to: Geo, d: Id)
    requires ThreadsFollow(start, p, e) && InfoIs(p, e.net, d) && Next(e, step, to)
    ensures InfoIs(Go(p, step, to), to.net, d)
  {
    hide SomeoneHas, Backoff.Delay, Enqueue, Reschedule, Current, ResolverAnswers, CacheAfter, Forget, CountFailure;
    match step
    case Login(_, _) =>
    case Logout(_) =>
    case Update =>
    case _ => assert to.net == e.net;
  }

  lemma CacheMoves(start: int, p: Path, e: Geo, step: Step, to: Geo, ip: Ip)
    requires ThreadsFollow(start, p, e) && CacheIs(p, e.cache, ip) && Next(e, step, to)
    ensures CacheIs(Go(p, step, to), to.cache, ip)
  {
    hide SomeoneHas, Backoff.Delay, Enqueue, Reschedule, Current, ResolverAnswers, UpdateNet, Forget, CountFailure;
    match step
    case Resolve(_) =>
    case _ => assert to.cache == e.cache;
  }

  lemma StepAnswers(start: int, p: Path, e: Geo, step: Step, to: Geo)
    requires Follows(start, p, e) && Next(e, step, to)
    ensures AnswersFollow(Go(p, step, to), to)
  {
    hide Next, FailuresFollow, QueueFollows, ThreadsFollow, InfoIs, CacheIs;
    forall d
      ensures InfoIs(Go(p, step, to), to.net, d)
    {
      NetMoves(start, p, e, step, to, d);
    }
    forall ip
      ensures CacheIs(Go(p, step, to), to.cache, ip)
    {
      CacheMoves(start, p, e, step, to, ip);
    }
  }

  /** In every run, the state is what its steps say: the clock, what is planned and for when, how often each address
      failed, what each device shows, and what is cached. */
  lemma {:induction false} RunsFollow(g: Geo, p: Path)
    requires Init(g) && Walks(g, p)
    ensures Follows(g.clock, p, EndOf(g, p))
  {
    match p
    case Here =>
    case Go(before, step, to) =>
      hide Init, Next, Follows;
      RunsFollow(g, before);
      var e := EndOf(g, before);
      StepThreads(g.clock, before, e, step, to);
      StepFailures(g.clock, before, e, step, to);
      StepQueue(g.clock, before, e, step, to);
      StepAnswers(g.clock, before, e, step, to);
      assert Follows(g.clock, p, to);
  }

  // ---- what the steps of a run do ---------------------------------------------------------

  /** The lookup that is planned earliest, for a time that has come. */
  ghost predicate IsDue(start: int, p: Path, job: Job) {
    && !Stopped(p) && Planned(start, p, job.clientIp) == Some(job.runAt) && job.runAt <= Clock(start, p)
    && forall ip :: Planned(start, p, ip).Some? ==> job.runAt <= Planned(start, p, ip).value
  }

  lemma IdleHasAllQueued(e: Geo, j: Job)
    requires QueueOk(e) && !e.q.stopped && e.worker.Idle?
    ensures j in e.q.jobs <==> j.clientIp in e.q.pending && e.q.pending[j.clientIp] == j.runAt
  {
    if j.clientIp in e.q.pending && e.q.pending[j.clientIp] == j.runAt {
      assert Queued(e.q, j.clientIp);
      assert j == Job(j.clientIp, e.q.pending[j.clientIp]);
    }
    if j in e.q.jobs {
      assert Current(e.q, j);
    }
  }

  lemma DueMeans(start: int, p: Path, e: Geo, job: Job)
    requires QueueFollows(start, p, e) && e.clock == Clock(start, p) && QueueOk(e) && e.worker.Idle?
    ensures Due(e.q, job, e.clock) <==> IsDue(start, p, job)
  {
    hide QueueOk, Clock, Stopped, Planned, Waiting;
    assert forall ip :: PlanIs(start, p, e.q, ip);
    if !e.q.stopped {
      forall j: Job
        ensures j in e.q.jobs <==> Planned(start, p, j.clientIp) == Some(j.runAt)
      {
        IdleHasAllQueued(e, j);
        assert PlanIs(start, p, e.q, j.clientIp);
      }
      forall ip | Planned(start, p, ip).Some?
        ensures Job(ip, Planned(start, p, ip).value) in e.q.jobs
      {
        var j := Job(ip, Planned(start, p, ip).value);
        assert Planned(start, p, j.clientIp) == Some(j.runAt);
      }
    }
  }

  /** The job that an idle worker may take is the lookup planned earliest, from the time it is planned for on. */
  lemma MayTakeIff(g: Geo, p: Path, job: Job)
    requires Init(g) && Walks(g, p)
    ensures (exists to :: Next(EndOf(g, p), TakeJob(job), to))
       <==> EndOf(g, p).worker.Idle? && IsDue(g.clock, p, job)
  {
    var e := EndOf(g, p);
    RunsFollow(g, p);
    GeoIpSafety.RunsAreSafe(g, p);
    hide Init, Walks, QueueOk, Due, QueueFollows, FailuresFollow, AnswersFollow, IsDue;
    if e.worker.Idle? {
      DueMeans(g.clock, p, e, job);
    }
    assert Due(e.q, job, e.clock) && e.worker.Idle?
      ==> Next(e, TakeJob(job), e.(q := Pop(e.q, job), worker := Popped(job)));
  }

  lemma WantedMeans(p: Path, e: Geo, ip: Ip)
    requires AnswersFollow(p, e)
    ensures Wanted(p, ip) <==> SomeoneHas(e.net, ip)
  {
    hide InfoOf;
    if d :| InfoOf(p, d).Some? && InfoOf(p, d).value.clientIp == ip {
      assert InfoIs(p, e.net, d);
    }
    if d :| d in e.net && e.net[d].clientIp == ip {
      assert InfoIs(p, e.net, d);
    }
  }

  /** Where the worker turns: a job is dropped unless it is the one planned; an address is looked up, its answer is
      used and another try is made only if a device has it then; and a first wait of zero means no other try. */
  lemma TurnsMean(g: Geo, p: Path)
    requires Init(g) && Walks(g, p) && p.Go?
    ensures var was, ip := p.before, Held(p.before).clientIp;
            match p.step
            case StaleTest =>
              p.to.worker == if Planned(g.clock, was, ip) == Some(Held(was).runAt) then Checked(Held(was)) else Idle
            case FirstLook => p.to.worker == if Wanted(was, ip) then Resolving(Held(was)) else GivingUp(Held(was))
            case SecondLook =>
              p.to.worker == if Wanted(was, ip) then Deciding(Held(was), Reply(was)) else GivingUp(Held(was))
            case ChooseRetry(base, cap) =>
              !Stopped(was) ==>
                p.to.worker == if RetryAt(g.clock, p) > Clock(g.clock, was) && Wanted(was, ip)
                               then Retrying(Held(was), RetryAt(g.clock, p))
                               else GivingUp(Held(was))
            case Resolve(answer) =>
              && answer.info.clientIp == ip
              && (Cached(was, ip).Some? ==> answer == Lookup(Cached(was, ip).value, true, false))
              && (Cached(was, ip).None? ==>
                    answer.resolved == (answer.info.location != "") && (answer.resolved ==> !answer.retryable))
            case _ => true
  {
    RunsFollow(g, p.before);
    var e := EndOf(g, p.before);
    hide Init, Walks, Held, Reply, Cached, Clock, Stopped, Wanted, SomeoneHas;
    WantedMeans(p.before, e, Held(p.before).clientIp);
    assert PlanIs(g.clock, p.before, e.q, Held(p.before).clientIp);
    assert CacheIs(p.before, e.cache, Held(p.before).clientIp);
    assert Next(e, p.step, p.to);
  }
}
