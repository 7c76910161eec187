/** The objects behind the model: the queue, the devices' network information and the resolver's cache. Each
    method is one critical section, proved to do what the model's step does to its part of the state. */
module GeoIpService {
  import opened Identity
  import Backoff
  import opened GeoIpModel

  lemma TakeOut(jobs: seq<Job>, k: nat)
    requires k < |jobs|
    ensures jobs[k] in multiset(jobs)
    ensures multiset(jobs[..k] + jobs[k + 1..]) == multiset(jobs) - multiset{jobs[k]}
  {
    assert jobs == jobs[..k] + ([jobs[k]] + jobs[k + 1..]);
  }

  class LookupQueue {
    var jobs: seq<Job>            // the priority queue, in no particular order
    var pending: map<Ip, int>
    var failures: map<Ip, nat>
    var stopped: bool

    ghost function State(): Queue
      reads this
    {
      Queue(multiset(jobs), pending, failures, stopped)
    }

    constructor ()
      ensures State() == Queue(multiset{}, map[], map[], false)
    {
      jobs, pending, failures, stopped := [], map[], map[], false;
    }

    /** EnqueueGeoIpLookup; `now` was read before the mutex was taken. */
    method EnqueueGeoIpLookup(ip: Ip, delay: int, now: int)
      modifies this
      ensures State() == if ip == "" then old(State()) else Enqueue(old(State()), ip, now + Max0(delay))
    {
      if ip == "" {
        return;
      }
      var runAt := now + Max0(delay);
      if stopped || ip in pending || |jobs| >= MAX_JOBS {
        return;
      }
      pending := pending[ip := runAt];
      jobs := jobs + [Job(ip, runAt)];
    }

    /** Takes the earliest job, if it is due. */
    method TakeDueJob(now: int) returns (found: bool, job: Job)
      modifies this`jobs
      ensures found ==> Due(old(State()), job, now) && State() == Pop(old(State()), job)
      ensures !found ==> State() == old(State()) && forall j :: !Due(State(), j, now)
    {
      found, job := false, Job("", 0);
      if stopped || jobs == [] {
        return;
      }
      var first := Earliest();
      job := jobs[first];
      TakeOut(jobs, first);
      if job.runAt <= now {
        found := true;
        jobs := jobs[..first] + jobs[first + 1..];
      }
    }

    method Earliest() returns (first: nat)
      requires jobs != []
      ensures first < |jobs| && forall j :: j in multiset(jobs) ==> jobs[first].runAt <= j.runAt
    {
      first := 0;
      for i := 1 to |jobs|
        invariant 0 <= first < i <= |jobs|
        invariant forall k :: 0 <= k < i ==> jobs[first].runAt <= jobs[k].runAt
      {
        if jobs[i].runAt < jobs[first].runAt {
          first := i;
        }
      }
    }

    method IsCurrent(job: Job) returns (yes: bool)
      ensures yes == Current(State(), job)
    {
      yes := job.clientIp in pending && pending[job.clientIp] == job.runAt;
    }

    method ForgetLookup(ip: Ip)
      modifies this`pending, this`failures
      ensures State() == Forget(old(State()), ip)
    {
      pending := pending - {ip};
      failures := failures - {ip};
    }

    method NoteFailure(ip: Ip) returns (count: nat)
      modifies this`failures
      ensures State() == CountFailure(old(State()), ip) && count == FailuresOf(State(), ip)
    {
      count := (if ip in failures then failures[ip] else 0) + 1;
      failures := failures[ip := count];
    }

    method PutBackJob(ip: Ip, retryAt: int)
      modifies this`jobs, this`pending
      ensures State() == Reschedule(old(State()), ip, retryAt)
    {
      pending := pending - {ip};
      if !stopped && |jobs| < MAX_JOBS {
        pending := pending[ip := retryAt];
        jobs := jobs + [Job(ip, retryAt)];
      }
    }

    method StopClientNetworkInfoWorker()
      modifies this
      ensures State() == Stop(old(State()))
    {
      stopped, jobs, pending, failures := true, [], map[], map[];
    }
  }

  function With(infos: map<Id, Info>, ip: Ip): set<Id> {
    set d | d in infos && infos[d].clientIp == ip
  }

  /** UpdateNet with the devices in `todo` still to be visited. */
  function UpdateSome(infos: map<Id, Info>, ip: Ip, info: Info, todo: set<Id>): map<Id, Info> {
    map d | d in infos :: if d !in todo && infos[d].clientIp == ip then info else infos[d]
  }

  lemma UpdateVisit(infos: map<Id, Info>, ip: Ip, info: Info, todo: set<Id>, d: Id)
    requires d in todo && todo <= infos.Keys
    ensures var now := UpdateSome(infos, ip, info, todo);
            var rest := With(infos, ip) - todo;
            && d in now && now[d] == infos[d]
            && (if now[d].clientIp == ip then
                  UpdateSome(infos, ip, info, todo - {d}) == now[d := info]
                  && |With(infos, ip) - (todo - {d})| == |rest| + 1
                else
                  UpdateSome(infos, ip, info, todo - {d}) == now && With(infos, ip) - (todo - {d}) == rest)
  {
    var more := With(infos, ip) - (todo - {d});
    if infos[d].clientIp == ip {
      assert more == With(infos, ip) - todo + {d};
    } else {
      assert more == With(infos, ip) - todo;
    }
  }

  class NetworkInfo {
    var infos: map<Id, Info>

    constructor ()
      ensures infos == map[]
    {
      infos := map[];
    }

    method SetDeviceNetworkInfo(d: Id, info: Info)
      modifies this
      ensures infos == if d == "" then old(infos) else old(infos)[d := info]
    {
      if d != "" {
        infos := infos[d := info];
      }
    }

    method ForgetDevice(d: Id)
      modifies this
      ensures infos == old(infos) - {d}
    {
      infos := infos - {d};
    }

    method HasDeviceWithClientIp(ip: Ip) returns (yes: bool)
      ensures yes == SomeoneHas(infos, ip)
    {
      if ip == "" {
        return false;
      }
      var todo := infos.Keys;
      while todo != {}
        invariant todo <= infos.Keys
        invariant forall d :: d in infos.Keys - todo ==> infos[d].clientIp != ip
      {
        var d :| d in todo;
        if infos[d].clientIp == ip {
          return true;
        }
        todo := todo - {d};
      }
      yes := false;
    }

    method UpdateDevicesWithClientIp(ip: Ip, info: Info) returns (updated: nat)
      modifies this
      ensures infos == UpdateNet(old(infos), ip, info)
      ensures updated == if ip == "" then 0 else |With(old(infos), ip)|
    {
      updated := 0;
      if ip == "" {
        return;
      }
      ghost var before := infos;
      var todo := infos.Keys;
      assert With(before, ip) - todo == {};
      while todo != {}
        invariant todo <= before.Keys && infos == UpdateSome(before, ip, info, todo)
        invariant updated == |With(before, ip) - todo|
      {
        var d :| d in todo;
        UpdateVisit(before, ip, info, todo, d);
        hide UpdateSome, With;
        if infos[d].clientIp == ip {
          infos := infos[d := info];
          updated := updated + 1;
        }
        todo := todo - {d};
      }
      assert With(before, ip) - {} == With(before, ip);
    }
  }

  class GeoLocationResolver {
    var cache: map<Ip, Info>

    /** Only answers with a location are cached, each under its own address. */
    ghost predicate Valid()
      reads this
    {
      forall ip :: ip in cache ==> cache[ip].location != "" && cache[ip].clientIp == ip
    }

    constructor ()
      ensures Valid() && cache == map[]
    {
      cache := map[];
    }

    /** ResolveWithRetryInfo. `isPrivate` classifies the address; `fetched` is what the network lookup of a public
        address brings back, about which only the address is known. */
    method ResolveWithRetryInfo(ip: Ip, enabled: bool, isPrivate: bool, fetched: Info) returns (answer: Lookup)
      requires Valid() && fetched.clientIp == ip
      modifies this
      ensures Valid()
      ensures if !enabled || ip == "" then answer == Lookup(Bare(ip), false, false) && cache == old(cache)
              else ResolverAnswers(old(cache), ip, answer) && cache == CacheAfter(old(cache), ip, answer)
      ensures answer.resolved ==> ip in cache && answer.info == cache[ip]
      ensures enabled && ip != "" && ip !in old(cache) ==>
                answer == if isPrivate then Lookup(Info(ip, "", "", "", "Private network"), true, false)
                          else Lookup(fetched, fetched.location != "", fetched.location == "")
    {
      if ip == "" || !enabled {
        return Lookup(Bare(ip), false, false);
      }
      if ip in cache {
        return Lookup(cache[ip], true, false);
      }
      var info := Bare(ip);
      var retryable := false;
      if isPrivate {
        info := info.(location := "Private network");
      } else {
        retryable := true;
        info := fetched;
      }
      if info.location != "" {
        cache := cache[ip := info];
      }
      answer := Lookup(info, info.location != "", info.location == "" && retryable);
    }
  }

  // ---- the worker -------------------------------------------------------------------------

  lemma UpdateIsStep(s: Geo, job: Job, info: Info, s': Geo)
    requires s.worker == Updating(job, info)
    requires s' == s.(net := UpdateNet(s.net, job.clientIp, info), worker := Idle)
    ensures Next(s, Update, s')
  {
  }

  lemma WalksOn(g: Geo, p: Path, step: Step, to: Geo)
    requires Walks(g, p) && Next(EndOf(g, p), step, to)
    ensures Walks(g, Go(p, step, to))
  {
    hide Next;
  }

  class GeoIpWorker {
    const queue: LookupQueue
    const net: NetworkInfo
    const resolver: GeoLocationResolver

    constructor (queue: LookupQueue, net: NetworkInfo, resolver: GeoLocationResolver)
      ensures this.queue == queue && this.net == net && this.resolver == resolver
    {
      this.queue, this.net, this.resolver := queue, net, resolver;
    }

    /** The objects are in the state `g`, and the worker is at `w`. */
    ghost predicate At(g: Geo, w: Worker)
      reads this, queue, net, resolver
    {
      && g.q == queue.State() && g.net == net.infos && g.cache == resolver.cache && g.worker == w && resolver.Valid()
    }

    /** The walk `p` from `g` is done, the objects are where it ends, and the worker is at `w`. */
    ghost predicate Walked(g: Geo, p: Path, w: Worker)
      reads this, queue, net, resolver
    {
      Walks(g, p) && At(EndOf(g, p), w)
    }

    /** ProcessGeoIpLookup, when nothing comes between its critical sections: a walk of the model's worker from
        the popped job back to idle. */
    method ProcessGeoIpLookup(job: Job, isPrivate: bool, fetched: Info, base: nat, cap: nat, now: int, ghost g: Geo)
      returns (ghost p: Path)
      requires At(g, Popped(job)) && job.clientIp != "" && fetched.clientIp == job.clientIp && g.clock <= now
      modifies queue, net, resolver
      ensures Walked(g, p, Idle)
    {
      hide Walks, Next;
      var current, wanted, answer;
      current, p := TestStale(g, job);
      if !current {
        return;
      }
      wanted, p := FirstLookAt(g, p, job);
      if !wanted {
        p := GiveUpOn(g, p, job);
        return;
      }
      answer, p := Ask(g, p, job, isPrivate, fetched);
      wanted, p := SecondLookAt(g, p, job, answer);
      if !wanted {
        p := GiveUpOn(g, p, job);
        return;
      }
      if answer.resolved {
        p := UpdateAll(g, p, job, answer);
        return;
      }
      if !answer.retryable {
        p := AcceptUnknown(g, p, job, answer);
        return;
      }
      p := RetryLater(g, p, job, answer, base, cap, now);
    }

    /** A failed lookup that may be retried. */
    method RetryLater(ghost g: Geo, ghost before: Path, job: Job, answer: Lookup, base: nat, cap: nat, now: int)
        returns (ghost p: Path)
      requires Walked(g, before, Deciding(job, answer)) && !answer.resolved && answer.retryable && EndOf(g,
          before).clock <= now
      modifies queue
      ensures Walked(g, p, Idle)
    {
      hide Walks, Next;
      var failures;
      failures, p := NoteFailureOf(g, before, job, answer);
      var delay, held := Backoff.GeoIpFailureRetryDelay(base, cap, failures);
      var delayed;
      delayed, p := Choose(g, p, job, failures, base, cap, delay, now);
      if delayed {
        p := PutBackAt(g, p, job, now + delay);
      } else {
        p := GiveUpOn(g, p, job);
      }
    }

    method TestStale(ghost g: Geo, job: Job) returns (current: bool, ghost p: Path)
      requires At(g, Popped(job))
      ensures Walked(g, p, if current then Checked(job) else Idle) && EndOf(g, p).clock == g.clock
    {
      current := queue.IsCurrent(job);
      assert Walks(g, Here);
      p := Go(Here, StaleTest, g.(worker := if current then Checked(job) else Idle));
    }

    method FirstLookAt(ghost g: Geo, ghost before: Path, job: Job) returns (wanted: bool, ghost p: Path)
      requires Walked(g, before, Checked(job))
      ensures Walked(g, p, if wanted then Resolving(job) else GivingUp(job))
      ensures EndOf(g, p).clock == EndOf(g, before).clock
    {
      wanted := net.HasDeviceWithClientIp(job.clientIp);
      p := Go(before, FirstLook, EndOf(g, before).(worker := if wanted then Resolving(job) else GivingUp(job)));
    }

    method Ask(ghost g: Geo, ghost before: Path, job: Job, isPrivate: bool, fetched: Info) returns (answer: Lookup,
        ghost p: Path)
      requires Walked(g, before, Resolving(job)) && fetched.clientIp == job.clientIp && job.clientIp != ""
      modifies resolver
      ensures Walked(g, p, Answered(job, answer)) && EndOf(g, p).clock == EndOf(g, before).clock
    {
      answer := resolver.ResolveWithRetryInfo(job.clientIp, true, isPrivate, fetched);
      p := Go(before, Resolve(answer), EndOf(g, before).(worker := Answered(job, answer), cache := resolver.cache));
    }

    method SecondLookAt(ghost g: Geo, ghost before: Path, job: Job, answer: Lookup) returns (wanted: bool,
        ghost p: Path)
      requires Walked(g, before, Answered(job, answer))
      ensures Walked(g, p, if wanted then Deciding(job, answer) else GivingUp(job))
      ensures EndOf(g, p).clock == EndOf(g, before).clock
    {
      wanted := net.HasDeviceWithClientIp(job.clientIp);
      p := Go(before, SecondLook, EndOf(g, before).(worker := if wanted then Deciding(job, answer) else GivingUp(job)));
    }

    /** The resolved path: forget the lookup first, then update whoever has the address by now. */
    method UpdateAll(ghost g: Geo, ghost before: Path, job: Job, answer: Lookup) returns (ghost p: Path)
      requires Walked(g, before, Deciding(job, answer)) && answer.resolved
      modifies queue, net
      ensures Walked(g, p, Idle)
    {
      hide Walks, Next, UpdateNet;
      p := ForgetResolved(g, before, job, answer);
      var updated := net.UpdateDevicesWithClientIp(job.clientIp, answer.info);
      ghost var mid := EndOf(g, p);
      ghost var last := mid.(net := net.infos, worker := Idle);
      UpdateIsStep(mid, job, answer.info, last);
      WalksOn(g, p, Update, last);
      p := Go(p, Update, last);
    }

    method ForgetResolved(ghost g: Geo, ghost before: Path, job: Job, answer: Lookup) returns (ghost p: Path)
      requires Walked(g, before, Deciding(job, answer)) && answer.resolved
      modifies queue
      ensures Walked(g, p, Updating(job, answer.info))
    {
      queue.ForgetLookup(job.clientIp);
      ghost var s := EndOf(g, before);
      p := Go(before, Decide, s.(q := queue.State(), worker := Updating(job, answer.info),
          refused := s.refused - {job.clientIp}));
    }

    method AcceptUnknown(ghost g: Geo, ghost before: Path, job: Job, answer: Lookup) returns (ghost p: Path)
      requires Walked(g, before, Deciding(job, answer)) && !answer.resolved && !answer.retryable
      modifies queue
      ensures Walked(g, p, Idle)
    {
      queue.ForgetLookup(job.clientIp);
      ghost var s := EndOf(g, before);
      p := Go(before, Decide, s.(q := queue.State(), worker := Idle,
                                 dropped := s.dropped + {job.clientIp}, refused := s.refused - {job.clientIp}));
    }

    method NoteFailureOf(ghost g: Geo, ghost before: Path, job: Job, answer: Lookup) returns (failures: nat,
        ghost p: Path)
      requires Walked(g, before, Deciding(job, answer)) && !answer.resolved && answer.retryable
      modifies queue
      ensures Walked(g, p, Failed(job, failures)) && EndOf(g, p).clock == EndOf(g, before).clock
    {
      failures := queue.NoteFailure(job.clientIp);
      p := Go(before, Decide, EndOf(g, before).(q := queue.State(), worker := Failed(job, failures)));
    }

    /** Retry later unless the delay is zero or nobody has the address any more. */
    method Choose(ghost g: Geo, ghost before: Path, job: Job, ghost failures: nat, ghost base: nat, ghost cap: nat,
        delay: nat, now: int)
      returns (delayed: bool, ghost p: Path)
      requires Walked(g, before, Failed(job, failures)) && delay == Backoff.Delay(base, cap, failures)
      requires EndOf(g, before).clock <= now
      ensures Walked(g, p, if delayed then Retrying(job, now + delay) else GivingUp(job))
    {
      hide Backoff.Delay;
      var wanted := net.HasDeviceWithClientIp(job.clientIp);
      delayed := delay > 0 && wanted;
      ghost var ticked := EndOf(g, before).(clock := now);
      p := Go(before, Tick(now), ticked);
      assert Walks(g, p);
      p := Go(p, ChooseRetry(base, cap), ticked.(worker := if delayed then Retrying(job,
          now + delay) else GivingUp(job)));
    }

    method PutBackAt(ghost g: Geo, ghost before: Path, job: Job, retryAt: int) returns (ghost p: Path)
      requires Walked(g, before, Retrying(job, retryAt))
      modifies queue
      ensures Walked(g, p, Idle)
    {
      ghost var s := EndOf(g, before);
      ghost var taken := !queue.stopped && |queue.jobs| < MAX_JOBS;
      queue.PutBackJob(job.clientIp, retryAt);
      p := Go(before, PutBack, s.(q := queue.State(), worker := Idle,
                                  dropped := if taken then s.dropped - {job.clientIp} else s.dropped + {job.clientIp},
                                  refused := if taken then s.refused else s.refused + {job.clientIp}));
    }

    method GiveUpOn(ghost g: Geo, ghost before: Path, job: Job) returns (ghost p: Path)
      requires Walked(g, before, GivingUp(job))
      modifies queue
      ensures Walked(g, p, Idle)
    {
      queue.ForgetLookup(job.clientIp);
      ghost var s := EndOf(g, before);
      p := Go(before, GiveUp, s.(q := queue.State(), worker := Idle,
                                 dropped := s.dropped + {job.clientIp}, refused := s.refused - {job.clientIp}));
    }
  }
}
