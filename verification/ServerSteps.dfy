/** What a batch of callbacks does to the call log, the rows and the online set, for the steps that end sessions. */
module ServerSteps {
  import opened Identity
  import Orders
  import opened Ledger
  import opened Accounting
  import opened Transmission
  import opened TransmissionFacts
  import opened Delivery
  import opened ServerModel

  /** The callbacks `calls`, made while memory went from `tm` to `after`, take exactly the vanished pairs out of the
      call log, their keys out of the rows, and exactly the logged-out users out of the online set. */
  ghost predicate Settles(tm: TM, calls: seq<Call>, after: TM, log: seq<Call>, open: OpenSessions, on: set<Id>) {
    && Pairs(after.guests) <= Pairs(tm.guests)
    && Alternates(log + calls) && OpenPairs(log + calls) == Pairs(after.guests)
    && RunOpen(open, OpsOf(calls)) == open - KeysOf(Pairs(tm.guests) - Pairs(after.guests))
    && RunOnline(on, OpsOf(calls)) == on - StoredUsers(LoggedOutBy(calls))
  }

  ghost predicate InTune(tm: TM, log: seq<Call>) {
    Alternates(log) && OpenPairs(log) == Pairs(tm.guests)
  }

  lemma EndsSettle(tm: TM, calls: seq<Call>, after: TM, log: seq<Call>, open: OpenSessions, on: set<Id>)
    requires EndsExactly(calls, tm.hostOf, Pairs(tm.guests), Pairs(after.guests)) && InTune(tm, log)
    ensures Settles(tm, calls, after, log, open, on) && LoggedOutBy(calls) == {}
  {
    EndsCloseLog(log, calls, tm.hostOf, Pairs(tm.guests), Pairs(after.guests));
    EndsCloseRows(calls, tm.hostOf, Pairs(tm.guests), Pairs(after.guests), open, on);
    EndsLogNobodyOut(calls, tm.hostOf, Pairs(tm.guests), Pairs(after.guests));
    StoredUsersMore({}, "");
    assert on - {} == on;
  }

  lemma EndsLogNobodyOut(calls: seq<Call>, hostOf: map<Id, Id>, before: set<Pair>, after: set<Pair>)
    requires EndsExactly(calls, hostOf, before, after)
    ensures LoggedOutBy(calls) == {} && after <= before
  {
    assert forall c :: c in calls ==> c.Ended?;
  }

  lemma TimeoutSettles(tm: TM, calls: seq<Call>, after: TM, log: seq<Call>, open: OpenSessions, on: set<Id>,
      h: Handle, u: Id)
    requires Settles(tm, calls, after, log, open, on)
    ensures Settles(tm, calls + [TimedOut(h, u)], after, log, open, on)
    ensures LoggedOutBy(calls + [TimedOut(h, u)]) == LoggedOutBy(calls) + if u == "" then {} else {u}
  {
    hide Alternates, OpenPairs, RunOpen, RunOnline, OpsOf, LoggedOutBy, KeysOf, StoredUsers, Stored;
    var c := TimedOut(h, u);
    Orders.Concat(log, calls, [c]);
    AlternatesOne(log + calls, c);
    TimeoutRuns(open, on, calls, h, u);
    LoggedOutOne(calls, c);
    StoredUsersMore(LoggedOutBy(calls), u);
    assert LoggedOutBy(calls) + {} == LoggedOutBy(calls);
    var out := StoredUsers(LoggedOutBy(calls));
    assert on - out - {Stored(u)} == on - (out + {Stored(u)});
  }

  lemma TimeoutRuns(open: OpenSessions, on: set<Id>, calls: seq<Call>, h: Handle, u: Id)
    ensures RunOpen(open, OpsOf(calls + [TimedOut(h, u)])) == RunOpen(open, OpsOf(calls))
    ensures RunOnline(on, OpsOf(calls + [TimedOut(h, u)]))
         == if u == "" then RunOnline(on, OpsOf(calls)) else RunOnline(on, OpsOf(calls)) - {Stored(u)}
  {
    OpsOfOne(calls, TimedOut(h, u));
    if u == "" {
      assert OpsOf(calls) + [] == OpsOf(calls);
    } else {
      RunOpenOne(open, OpsOf(calls), SetOffline(u));
      RunOnlineOne(on, OpsOf(calls), SetOffline(u));
    }
  }

  lemma LoggedOutOne(calls: seq<Call>, c: Call)
    ensures LoggedOutBy(calls + [c]) == LoggedOutBy(calls) + if c.TimedOut? && c.user != "" then {c.user} else {}
  {
  }

  lemma LoggedOutAppends(a: seq<Call>, b: seq<Call>)
    ensures LoggedOutBy(a + b) == LoggedOutBy(a) + LoggedOutBy(b)
  {
  }

  lemma SettlesAppend(tm: TM, a: seq<Call>, mid: TM, b: seq<Call>, after: TM, log: seq<Call>, open: OpenSessions,
      on: set<Id>)
    requires Settles(tm, a, mid, log, open, on)
    requires Settles(mid, b, after, log + a, RunOpen(open, OpsOf(a)), RunOnline(on, OpsOf(a)))
    ensures Settles(tm, a + b, after, log, open, on)
  {
    hide Pairs, Alternates, OpenPairs, RunOpen, RunOnline, OpsOf, LoggedOutBy, KeyOf, StoredUsers;
    Orders.Concat(log, a, b);
    OpsAppend(a, b);
    RunAppends(open, on, OpsOf(a), OpsOf(b));
    LoggedOutAppends(a, b);
    var p, m, q := Pairs(tm.guests), Pairs(mid.guests), Pairs(after.guests);
    assert p - m + (m - q) == p - q;
    KeysOfUnion(p - m, m - q);
    RemoveTwice(open, KeysOf(p - m), KeysOf(m - q));
    StoredUsersUnion(LoggedOutBy(a), LoggedOutBy(b));
    var outA, outB := StoredUsers(LoggedOutBy(a)), StoredUsers(LoggedOutBy(b));
    assert on - outA - outB == on - (outA + outB);
  }

  lemma DepartureSettles(tm: TM, d: Departure, log: seq<Call>, open: OpenSessions, on: set<Id>)
    requires Departs(tm, d) && InTune(tm, log)
    ensures Settles(tm, d.calls, d.after, log, open, on) && LoggedOutBy(d.calls) == {}
    ensures Settles(tm, d.calls + [TimedOut(d.hdl, d.LoggedOut())], d.after, log, open, on)
    ensures LoggedOutBy(d.calls + [TimedOut(d.hdl,
        d.LoggedOut())]) == if d.LoggedOut() == "" then {} else {d.LoggedOut()}
  {
    assert EndsExactly(d.calls, tm.hostOf, Pairs(tm.guests), Pairs(d.after.guests)) by {
      EndsNothing(tm.hostOf, Pairs(tm.guests));
    }
    hide Departs, EndsExactly, Settles, LoggedOutBy;
    EndsSettle(tm, d.calls, d.after, log, open, on);
    TimeoutSettles(tm, d.calls, d.after, log, open, on, d.hdl, d.LoggedOut());
  }

  lemma DepartureConnected(tm: TM, d: Departure)
    requires Departs(tm, d) && RoutingOk(tm)
    ensures Connected(d.after) == Connected(tm) - if d.LoggedOut() == "" then {} else {d.LoggedOut()}
  {
    hide Departs;
    DepartureUnbinds(tm, d);
    forall u | u in Connected(tm)
      ensures u in Connected(d.after) <==> u != d.LoggedOut()
    {
      DepartureLogsOut(tm, d, u);
    }
    forall u | u in Connected(d.after)
      ensures u in Connected(tm)
    {
      DepartureLogsOut(tm, d, u);
    }
  }

  lemma DepartureHosts(tm: TM, d: Departure)
    requires Departs(tm, d)
    ensures forall t :: t in d.after.hostOf ==> t in tm.hostOf && d.after.hostOf[t] == tm.hostOf[t]
  {
    hide EndsExactly, HandleReleased;
    assert d.unbound.hostOf == tm.hostOf by {
      DepartureKeepsHosts(tm, d);
    }
  }

  lemma DepartureKeepsHosts(tm: TM, d: Departure)
    requires Departs(tm, d)
    ensures d.unbound.hostOf == tm.hostOf
  {
  }

  lemma {:induction false} SweepSettles(tm: TM, tr: Trace, log: seq<Call>, open: OpenSessions, on: set<Id>)
    requires Sweep(tm, tr) && InTune(tm, log)
    ensures Settles(tm, SweepCalls(tr), AfterAll(tm, tr), log, open, on)
    ensures RoutingOk(tm) ==> Connected(AfterAll(tm, tr)) == Connected(tm) - LoggedOutBy(SweepCalls(tr))
    ensures forall t :: t in AfterAll(tm, tr).hostOf ==> t in tm.hostOf && AfterAll(tm, tr).hostOf[t] == tm.hostOf[t]
  {
    hide Departs, Settles, LoggedOutBy, RoutingOk, Connected, OpsOf, Alternates, OpenPairs;
    match tr
    case Still =>
      StillSettles(tm, log, open, on);
    case Then(before, d) =>
      var mid := AfterAll(tm, before);
      var made := SweepCalls(before);
      SweepSettles(tm, before, log, open, on);
      assert InTune(mid, log + made) by {
        SettledIsInTune(tm, made, mid, log, open, on);
      }
      DepartureSettles(mid, d, log + made, RunOpen(open, OpsOf(made)), RunOnline(on, OpsOf(made)));
      SettlesAppend(tm, made, mid, d.calls + [TimedOut(d.hdl, d.LoggedOut())], d.after, log, open, on);
      LoggedOutAppends(made, d.calls + [TimedOut(d.hdl, d.LoggedOut())]);
      DepartureHosts(mid, d);
      if RoutingOk(tm) {
        SweepKeepsInvariants(tm, before);
        DepartureConnected(mid, d);
      }
  }

  /** Only connected users are logged out. */
  lemma {:induction false} SweptWereConnected(tm: TM, tr: Trace)
    requires Sweep(tm, tr)
    ensures LoggedOutBy(SweepCalls(tr)) <= Connected(tm) && Connected(AfterAll(tm, tr)) <= Connected(tm)
  {
    hide Departs, Connected, LoggedOutBy;
    match tr
    case Still => NobodySwept(tm);
    case Then(before, d) =>
      SweptWereConnected(tm, before);
      DepartedWasConnected(AfterAll(tm, before), d);
      LoggedOutAppends(SweepCalls(before), d.calls + [TimedOut(d.hdl, d.LoggedOut())]);
  }

  lemma NobodySwept(tm: TM)
    ensures LoggedOutBy([]) <= Connected(tm)
  {
  }

  lemma DepartedWasConnected(tm: TM, d: Departure)
    requires Departs(tm, d)
    ensures LoggedOutBy(d.calls + [TimedOut(d.hdl, d.LoggedOut())]) <= Connected(tm)
    ensures Connected(d.after) <= Connected(tm)
  {
    hide Departs, EndsExactly;
    DepartureEnds(tm, d);
    assert LoggedOutBy(d.calls) == {};
    LoggedOutOne(d.calls, TimedOut(d.hdl, d.LoggedOut()));
    hide LoggedOutBy, Connected;
    DepartureLogsOut(tm, d, if d.LoggedOut() != "" then d.LoggedOut() else "-");
  }

  lemma StillSettles(tm: TM, log: seq<Call>, open: OpenSessions, on: set<Id>)
    requires InTune(tm, log)
    ensures Settles(tm, [], tm, log, open, on) && LoggedOutBy([]) == {} && Connected(tm) == Connected(tm) - {}
  {
    StoredUsersMore({}, "");
    assert KeysOf({}) == {} && Pairs(tm.guests) - Pairs(tm.guests) == {};
    assert log + [] == log && open - {} == open && on - {} == on;
  }

  lemma SettledIsInTune(tm: TM, calls: seq<Call>, after: TM, log: seq<Call>, open: OpenSessions, on: set<Id>)
    requires Settles(tm, calls, after, log, open, on)
    ensures InTune(after, log + calls)
  {
  }
}
