/** What TransmissionManager's operations keep, for every state and every order of iteration. */
module TransmissionFacts {
  import opened Identity
  import Orders
  import opened Transmission

  // ---- the session map --------------------------------------------------------------------

  lemma BindHostKeepsSessionMap(s: TM, host: Id, t: Id)
    requires SessionMapOk(s)
    ensures SessionMapOk(BindHost(s, host, t))
  {
  }

  lemma BindGuestPairs(s: TM, g: Id, t: Id)
    requires Joins(s, g, t)
    ensures forall p :: p in Pairs(BindGuest(s, g, t).guests) <==> p in Pairs(s.guests) || p == (t, g)
  {
    var was := ListOf(s.guests, t);
    SetGuestsPairs(s.guests, t, was + [g]);
    SetGuestsPairs(s.guests, t, was);
    assert BindGuest(s, g, t).guests == SetGuests(s.guests, t, was + [g]);
    hide Joins, BindGuest;
    assert forall x :: x in was <==> (t, x) in Pairs(s.guests);
  }

  lemma BindGuestKeepsSessionMap(s: TM, g: Id, t: Id)
    requires SessionMapOk(s)
    ensures SessionMapOk(BindGuest(s, g, t))
    ensures Pairs(BindGuest(s, g, t).guests) == Pairs(s.guests) + (if Joins(s, g, t) then {(t, g)} else {})
  {
    if Joins(s, g, t) {
      assert t in s.guests ==> forall x :: x in s.guests[t] ==> (t, x) in Pairs(s.guests);
      Orders.DistinctMore(ListOf(s.guests, t), g);
      hide Orders.Distinct, Pairs;
      BindGuestPairs(s, g, t);
    }
  }

  lemma ReleaseKeepsSessionMap(s: TM, t: Id)
    requires SessionMapOk(s)
    ensures SessionMapOk(DropTransmission(s, t))
    ensures Pairs(DropTransmission(s, t).guests) == set p | p in Pairs(s.guests) && p.0 != t
  {
  }

  /** Pruning leaves exactly the transmissions whose host is connected and the sessions both of whose
      parties are connected. */
  lemma PruneLeavesConnected(s: TM)
    requires SessionMapOk(s)
    ensures SessionMapOk(Prune(s))
    ensures forall t :: t in Prune(s).hostOf <==> t in s.hostOf && s.hostOf[t] in Connected(s)
    ensures forall t :: t in Prune(s).hostOf ==> Prune(s).hostOf[t] == s.hostOf[t]
    ensures forall p :: p in Pairs(Prune(s).guests)
                    <==> p in Pairs(s.guests) && s.hostOf[p.0] in Connected(s) && p.1 in Connected(s)
  {
    hide Filter;
    var hostOf := Prune(s).hostOf;
    var kept := s.(hostOf := hostOf, guests := map t | t in s.guests && t in hostOf :: s.guests[t]);
    FilterKeepsSessionMap(kept, Within(Connected(s)));
    assert forall p :: p in Pairs(kept.guests) <==> p in Pairs(s.guests) && s.hostOf[p.0] in Connected(s);
  }

  lemma DepartureKeepsSessionMap(s: TM, d: Departure)
    requires SessionMapOk(s) && Departs(s, d)
    ensures SessionMapOk(d.after)
  {
    hide EndsExactly, Filter;
    if d.LoggedOut() != "" {
      var left := DropGuest(d.unbound, d.owner);
      FilterKeepsSessionMap(d.unbound, Except(d.owner));
      ReleaseKeepsSessionMap(left, d.hosted);
    }
  }

  // ---- clean departure --------------------------------------------------------------------

  /** The user hosts at most one transmission, and not the one with the empty id. */
  ghost predicate HostsAtMostOne(s: TM, u: Id) {
    forall t, t' :: t in s.hostOf && t' in s.hostOf && s.hostOf[t] == u && s.hostOf[t'] == u ==> t == t' && t != ""
  }

  /** What happens to the hosts: at most the one transmission found is released. */
  lemma DepartureLeavesHosts(s: TM, d: Departure)
    requires Departs(s, d) && d.LoggedOut() != ""
    ensures d.after.hostOf == if d.hosted == "" then s.hostOf else s.hostOf - {d.hosted}
    ensures Hosted(s, d.LoggedOut(), d.hosted)
  {
    hide EndsExactly, Filter, FilterGuests;
  }

  lemma HostsLeft(hostOf: map<Id, Id>, u: Id, hosted: Id, after: map<Id, Id>, s: TM)
    requires s.hostOf == hostOf && Hosted(s, u, hosted) && after == if hosted == "" then hostOf else hostOf - {hosted}
    ensures u !in after.Values <==> HostsAtMostOne(s, u)
  {
    assert hosted != "" ==> hosted in hostOf && hostOf[hosted] == u;
    assert u in after.Values ==> exists t :: t in after && after[t] == u;
    if !HostsAtMostOne(s, u) {
      var t, t' :| t in hostOf && t' in hostOf && hostOf[t] == u && hostOf[t'] == u && !(t == t' && t != "");
      assert u in hostOf.Values;
      var other := if t == hosted then t' else t;
      assert other in after && after[other] == u;
    }
  }

  /** What happens to the sessions: those of the user go, and those of the transmission found; all others stay. */
  lemma DeparturePairs(s: TM, d: Departure)
    requires SessionMapOk(s) && Departs(s, d) && d.LoggedOut() != ""
    ensures forall p :: p in Pairs(d.after.guests) <==>
              p in Pairs(s.guests) && p.1 != d.LoggedOut() && (d.hosted == "" || p.0 != d.hosted)
  {
    hide EndsExactly, Filter, FilterGuests, Pairs;
    var left := DropGuest(d.unbound, d.LoggedOut());
    FilterKeepsSessionMap(d.unbound, Except(d.LoggedOut()));
    ReleaseKeepsSessionMap(left, d.hosted);
  }

  /** When a user's last handle goes, the user is guest nowhere, and host nowhere exactly when it hosted at
      most one transmission. Sessions and transmissions of others are untouched. */
  lemma CleanDeparture(s: TM, d: Departure)
    requires SessionMapOk(s) && Departs(s, d) && d.LoggedOut() != ""
    ensures var u := d.LoggedOut();
            && u == UserOf(s, d.hdl) && u !in Connected(d.after)
            && (forall p :: p in Pairs(d.after.guests) ==> p in Pairs(s.guests) && p.1 != u)
            && (u !in d.after.hostOf.Values <==> HostsAtMostOne(s, u))
            && (forall p :: p in Pairs(s.guests) && p.1 != u && s.hostOf[p.0] != u ==> p in Pairs(d.after.guests))
            && (forall t :: t in s.hostOf && s.hostOf[t] != u ==> t in d.after.hostOf)
            && (forall t :: t in d.after.hostOf ==> t in s.hostOf && d.after.hostOf[t] == s.hostOf[t])
  {
    DepartureUnbinds(s, d);
    assert d.owner == UserOf(s, d.hdl) == d.LoggedOut();
    hide Departs, EndsExactly, Filter, FilterGuests, HostsAtMostOne, HandleReleased;
    DepartureLeavesHosts(s, d);
    DeparturePairs(s, d);
    HostsLeft(s.hostOf, d.LoggedOut(), d.hosted, d.after.hostOf, s);
  }

  // ---- routing ----------------------------------------------------------------------------

  /** The two indexes agree: every routed user is bound to the handle its messages go to, every bound handle's
      user is routed, and exactly the bound handles are watched. */
  ghost predicate RoutingOk(s: TM) {
    && (forall u :: u in s.handleOf ==> s.handleOf[u] in s.userOf && s.userOf[s.handleOf[u]] == u)
    && (forall h :: h in s.userOf ==> s.userOf[h] in s.handleOf && h.Conn? && s.userOf[h] != "")
    && s.lastActive.Keys == s.userOf.Keys
  }

  lemma RoutingMeaning(s: TM, u: Id)
    requires RoutingOk(s)
    ensures HandleOf(s, u).Conn? <==> u in Connected(s)
    ensures u in Connected(s) ==> UserOf(s, HandleOf(s, u)) == u
    ensures HandleOf(s, u).Conn? ==> HandleOf(s, u) in s.userOf
  {
  }

  /** A login keeps the indexes in agreement exactly when it does not take the handle that another user's
      messages are sent to. */
  lemma BindKeepsRoutingIff(s: TM, u: Id, h: Handle, now: int)
    requires RoutingOk(s) && u != "" && h.Conn?
    ensures RoutingOk(BindUser(s, u, h, now))
       <==> !(h in s.userOf && s.userOf[h] != u && s.handleOf[s.userOf[h]] == h)
  {
    var after := BindUser(s, u, h, now);
    if h in s.userOf && s.userOf[h] != u && s.handleOf[s.userOf[h]] == h {
      var v := s.userOf[h];
      assert v in after.handleOf && after.userOf[after.handleOf[v]] == u;
    }
  }

  lemma ReleaseKeepsRouting(s: TM, h: Handle, after: TM)
    requires RoutingOk(s) && HandleReleased(s, h, after)
    ensures RoutingOk(after)
  {
    forall k | k in after.userOf
      ensures after.userOf[k] in after.handleOf
    {
      assert after.userOf[k] in Connected(after);
    }
    forall v | v in after.handleOf
      ensures after.handleOf[v] in after.userOf && after.userOf[after.handleOf[v]] == v
    {
    }
  }

  lemma DepartureKeepsRouting(s: TM, d: Departure)
    requires RoutingOk(s) && Departs(s, d)
    ensures RoutingOk(d.after)
  {
    hide EndsExactly;
    ReleaseKeepsRouting(s, d.hdl, d.unbound);
  }

  // ---- the timeout sweep ------------------------------------------------------------------

  function Logouts(calls: seq<Call>, u: Id): nat {
    if calls == [] then 0
    else
      var c := calls[|calls| - 1];
      Logouts(calls[..|calls| - 1], u) + if c.TimedOut? && c.user == u then 1 else 0
  }

  function TimeoutsOf(calls: seq<Call>, h: Handle): nat {
    if calls == [] then 0
    else
      var c := calls[|calls| - 1];
      TimeoutsOf(calls[..|calls| - 1], h) + if c.TimedOut? && c.hdl == h then 1 else 0
  }

  lemma {:induction false} EndsAreNoTimeouts(made: seq<Call>, ended: seq<Call>, last: Call, u: Id, h: Handle)
    requires forall i :: 0 <= i < |ended| ==> ended[i].Ended?
    ensures Logouts(made + (ended + [last]), u) == Logouts(made, u) + if last.TimedOut? && last.user == u then 1 else 0
    ensures TimeoutsOf(made + (ended + [last]), h) == TimeoutsOf(made, h) + if last.TimedOut?
        && last.hdl == h then 1 else 0
    decreases |ended|
  {
    var all := made + (ended + [last]);
    assert all[..|all| - 1] == made + ended;
    if ended == [] {
      assert made + ended == made;
    } else {
      var n := |ended| - 1;
      assert made + ended == made + (ended[..n] + [ended[n]]);
      EndsAreNoTimeouts(made, ended[..n], ended[n], u, h);
    }
  }

  lemma DepartureLogsOut(s: TM, d: Departure, u: Id)
    requires Departs(s, d) && u != ""
    ensures Connected(d.after) <= Connected(s)
    ensures d.LoggedOut() == u <==> u in Connected(s) && u !in Connected(d.after)
  {
    hide EndsExactly;
    assert d.after.userOf == s.userOf - {d.hdl};
    if u in Connected(s) {
      var h :| h in s.userOf && s.userOf[h] == u;
      if h != d.hdl {
        assert h in d.after.userOf && d.after.userOf[h] == u;
      }
    }
  }

  lemma DepartureEnds(s: TM, d: Departure)
    requires Departs(s, d)
    ensures forall i :: 0 <= i < |d.calls| ==> d.calls[i].Ended?
  {
  }

  lemma {:induction false} SweepUnbinds(s: TM, tr: Trace)
    requires Sweep(s, tr)
    ensures AfterAll(s, tr).userOf == s.userOf - Handles(tr)
    ensures AfterAll(s, tr).lastActive == s.lastActive - Handles(tr)
  {
    hide Departs;
    match tr
    case Still =>
      assert s.userOf - {} == s.userOf && s.lastActive - {} == s.lastActive;
    case Then(before, d) =>
      SweepUnbinds(s, before);
      DepartureUnbinds(AfterAll(s, before), d);
  }

  /** A sweep calls back once for each handle it gives up; a user is named by exactly one callback if no
      handle of the user is left, and by none otherwise. */
  lemma {:induction false} SweepCallsBack(s: TM, tr: Trace, u: Id, h: Handle)
    requires Sweep(s, tr) && OncePerHandle(tr) && u != ""
    ensures Connected(AfterAll(s, tr)) <= Connected(s)
    ensures Logouts(SweepCalls(tr), u) == if u in Connected(s) && u !in Connected(AfterAll(s, tr)) then 1 else 0
    ensures TimeoutsOf(SweepCalls(tr), h) == if h in Handles(tr) then 1 else 0
  {
    hide Departs, Connected;
    match tr
    case Still =>
    case Then(before, d) =>
      SweepCallsBack(s, before, u, h);
      DepartureLogsOut(AfterAll(s, before), d, u);
      DepartureEnds(AfterAll(s, before), d);
      EndsAreNoTimeouts(SweepCalls(before), d.calls, TimedOut(d.hdl, d.LoggedOut()), u, h);
  }

  lemma {:induction false} SweepKeepsInvariants(s: TM, tr: Trace)
    requires Sweep(s, tr)
    ensures SessionMapOk(s) ==> SessionMapOk(AfterAll(s, tr))
    ensures RoutingOk(s) ==> RoutingOk(AfterAll(s, tr))
  {
    hide Departs, SessionMapOk, RoutingOk;
    match tr
    case Still =>
    case Then(before, d) =>
      SweepKeepsInvariants(s, before);
      if SessionMapOk(s) {
        DepartureKeepsSessionMap(AfterAll(s, before), d);
      }
      if RoutingOk(s) {
        DepartureKeepsRouting(AfterAll(s, before), d);
      }
  }

  /** After a sweep the watched handles are those that were alive and active in the last ten seconds. */
  lemma SweepWatches(s: TM, tr: Trace, expired: set<Handle>, now: int)
    requires Sweep(s, tr) && Handles(tr) == Inactive(s, expired, now)
    ensures forall h :: h in AfterAll(s, tr).lastActive
                   <==> h in s.lastActive && h !in expired && now - s.lastActive[h] <= INACTIVITY_LIMIT_MS
  {
    SweepUnbinds(s, tr);
  }
}
