/** TransmissionManager: the object that holds the five maps and calls back on every session that starts or
    ends and on every connection that times out. `calls` records those calls in the order they were made. */
module Transmissions {
  import opened Identity
  import opened Orders
  import opened Transmission
  import TransmissionFacts

  lemma PrunedHosts(s: TM, list: seq<Id>)
    requires SessionMapOk(s)
    requires forall t :: t in list <==> t in s.hostOf && s.hostOf[t] !in Connected(s)
    ensures Prune(s).hostOf == s.hostOf - Elements(list)
    ensures Prune(s).guests == FilterGuests(s.guests - Elements(list), Within(Connected(s)))
  {
    var hostOf := Prune(s).hostOf;
    assert hostOf == s.hostOf - Elements(list);
    assert (map t | t in s.guests && t in hostOf :: s.guests[t]) == s.guests - Elements(list);
  }

  lemma ElementsGrow(list: seq<Id>, i: nat)
    requires i < |list|
    ensures Elements(list[..i + 1]) == Elements(list[..i]) + {list[i]}
  {
  }

  lemma TakeOut<T>(front: seq<T>, x: T, tail: seq<T>, list: seq<T>)
    requires list == front + ([x] + tail)
    ensures |front| < |list| && list[|front|] == x
    ensures list == front + [x] + tail
    ensures list[..|front|] + list[|front| + 1..] == front + tail
  {
    assert list[..|front|] == front && list[|front| + 1..] == tail;
  }

  lemma FilterStep(all: seq<Id>, seen: nat, keep: Id -> bool)
    requires seen < |all|
    ensures Filter(all[..seen + 1], keep) == Filter(all[..seen], keep) + if keep(all[seen]) then [all[seen]] else []
  {
    assert all[..seen + 1][..seen] == all[..seen];
  }

  lemma OthersStay(all: seq<Id>, seen: nat, keep: Id -> bool)
    requires seen < |all| && Distinct(all)
    ensures all[seen] !in Filter(all[..seen], keep) && all[seen] !in all[seen + 1..]
  {
    FilterMembers(all[..seen], keep);
  }

  /** Erasing while iterating: the first `seen` elements of `all` have been visited, those kept stand in
      front, and `i` points at the next one to visit. */
  ghost predicate Visiting(all: seq<Id>, seen: int, keep: Id -> bool, list: seq<Id>, i: int) {
    && 0 <= seen <= |all| && Distinct(all)
    && i == |Filter(all[..seen], keep)| && list == Filter(all[..seen], keep) + all[seen..]
  }

  lemma VisitFirst(all: seq<Id>, keep: Id -> bool)
    requires Distinct(all)
    ensures Visiting(all, 0, keep, all, 0)
  {
  }

  lemma VisitNext(all: seq<Id>, seen: int, keep: Id -> bool, list: seq<Id>, i: int)
    requires Visiting(all, seen, keep, list, i) && i < |list|
    ensures 0 <= i && 0 <= seen < |all|
    ensures if keep(list[i]) then Visiting(all, seen + 1, keep, list, i + 1)
            else Visiting(all, seen + 1, keep, list[..i] + list[i + 1..], i)
    ensures forall x :: x in list[..i] + list[i + 1..] <==> x in list && x != list[i]
  {
    var front, tail := Filter(all[..seen], keep), all[seen + 1..];
    assert all[seen..] == [all[seen]] + tail;
    TakeOut(front, all[seen], tail, list);
    FilterStep(all, seen, keep);
    OthersStay(all, seen, keep);
    hide Filter, Distinct;
    assert forall x :: x in list <==> x in front || x == all[seen] || x in tail;
    assert forall x :: x in front + tail <==> x in front || x in tail;
  }

  lemma VisitLast(all: seq<Id>, seen: int, keep: Id -> bool, list: seq<Id>, i: int)
    requires Visiting(all, seen, keep, list, i) && |list| <= i
    ensures list == Filter(all, keep)
  {
    hide Filter;
    assert all[seen..] == [] && all[..seen] == all;
  }

  lemma SetSame(guests: map<Id, seq<Id>>, t: Id)
    requires t in guests
    ensures Pairs(SetGuests(guests, t, guests[t])) == Pairs(guests)
  {
  }

  lemma SetKept(guests: map<Id, seq<Id>>, t: Id, g: Id)
    requires t in guests
    ensures guests[t] != [] ==> SetGuests(guests, t, guests[t]) == guests
    ensures g in guests[t] ==> (t, g) in Pairs(guests)
  {
  }

  lemma SetNone(guests: map<Id, seq<Id>>, t: Id, list: seq<Id>)
    requires list == []
    ensures SetGuests(guests, t, list) == guests - {t}
  {
  }

  lemma TailExcludes(list: seq<Id>, i: nat)
    requires Distinct(list) && i < |list|
    ensures forall x :: x in list[i + 1..] <==> x in list[i..] && x != list[i]
  {
    assert list[i..] == [list[i]] + list[i + 1..];
  }

  lemma ErasePair(guests: map<Id, seq<Id>>, t: Id, list: seq<Id>, left: seq<Id>, g: Id)
    requires g in list && forall x :: x in left <==> x in list && x != g
    ensures (t, g) in Pairs(SetGuests(guests, t, list))
    ensures Pairs(SetGuests(guests, t, left)) == Pairs(SetGuests(guests, t, list)) - {(t, g)}
  {
    hide Pairs;
    SetGuestsPairs(guests, t, list);
    SetGuestsPairs(guests, t, left);
  }

  lemma NoGuestListEmpty(s: TM)
    requires SessionMapOk(s)
    ensures forall t :: t in s.guests ==> s.guests[t] != [] && Distinct(s.guests[t])
  {
  }

  lemma InactiveAreWatched(s: TM, expired: set<Handle>, now: int)
    ensures Inactive(s, expired, now) <= s.lastActive.Keys
  {
  }

  lemma WatchListApart(s: TM, lastActive: map<Handle, int>)
    requires SessionMapOk(s)
    ensures SessionMapOk(s.(lastActive := lastActive))
  {
  }

  lemma GivesUp(s: TM, expired: set<Handle>, now: int, h: Handle)
    requires h in s.lastActive
    ensures h in Inactive(s, expired, now) <==> h in expired || now - s.lastActive[h] > INACTIVITY_LIMIT_MS
  {
  }

  class TransmissionManager {
    var hostOf: map<Id, Id>
    var guests: map<Id, seq<Id>>
    var handleOf: map<Id, Handle>
    var userOf: map<Handle, Id>
    var lastActive: map<Handle, int>
    var calls: seq<Call>

    ghost function State(): TM
      reads this
    {
      TM(hostOf, guests, handleOf, userOf, lastActive)
    }

    ghost predicate Valid()
      reads this
    {
      SessionMapOk(State())
    }

    constructor ()
      ensures Valid() && State() == IDLE && calls == []
    {
      hostOf, guests, handleOf, userOf, lastActive, calls := map[], map[], map[], map[], map[], [];
    }

    method GetUserId(h: Handle) returns (u: Id)
      ensures u == UserOf(State(), h)
    {
      u := if h in userOf then userOf[h] else "";
    }

    method GetWsHandle(u: Id) returns (h: Handle)
      ensures h == HandleOf(State(), u)
    {
      h := if u in handleOf then handleOf[u] else NoOwner;
    }

    method GetHostIdOfTransmission(t: Id) returns (h: Id)
      ensures h == HostName(hostOf, t)
    {
      h := if t in hostOf then hostOf[t] else "";
    }

    method IsHostOfTransmission(u: Id, t: Id) returns (yes: bool)
      ensures yes == (t in hostOf && hostOf[t] == u)
    {
      yes := t in hostOf && hostOf[t] == u;
    }

    /** The first transmission met that the user hosts. */
    method IsHost(u: Id) returns (t: Id)
      ensures Hosted(State(), u, t)
    {
      var todo := hostOf.Keys;
      while todo != {}
        invariant todo <= hostOf.Keys
        invariant forall k :: k in hostOf.Keys - todo ==> hostOf[k] != u
      {
        t :| t in todo;
        if hostOf[t] == u {
          return;
        }
        todo := todo - {t};
      }
      t := "";
    }

    method HasUserConnection(u: Id) returns (yes: bool)
      ensures yes == (u in Connected(State()))
    {
      var todo := userOf.Keys;
      while todo != {}
        invariant todo <= userOf.Keys
        invariant forall h :: h in userOf.Keys - todo ==> userOf[h] != u
      {
        var h :| h in todo;
        if userOf[h] == u {
          return true;
        }
        todo := todo - {h};
      }
      yes := false;
    }

    method BindHostToTransmission(host: Id, t: Id) returns (bound: bool)
      requires Valid()
      modifies this`hostOf
      ensures Valid() && State() == BindHost(old(State()), host, t)
      ensures bound == (t !in old(hostOf))
    {
      hide SessionMapOk;
      TransmissionFacts.BindHostKeepsSessionMap(State(), host, t);
      bound := t !in hostOf;
      if bound {
        hostOf := hostOf[t := host];
      }
    }

    method BindGuestToTransmission(guest: Id, t: Id) returns (bound: bool)
      requires Valid()
      modifies this`guests, this`calls
      ensures Valid() && State() == BindGuest(old(State()), guest, t)
      ensures bound == Joins(old(State()), guest, t)
      ensures calls == old(calls) + if bound then [Started(t, old(hostOf)[t], guest)] else []
    {
      if t !in hostOf || hostOf[t] == guest {
        return false;
      }
      var list := if t in guests then guests[t] else [];
      if guest in list {
        return false;
      }
      guests := guests[t := list + [guest]];
      calls := calls + [Started(t, hostOf[t], guest)];
      bound := true;
    }

    method BindUserToWsHandle(u: Id, h: Handle, now: int) returns (ok: bool)
      requires Valid()
      modifies this`handleOf, this`userOf, this`lastActive
      ensures Valid() && ok && State() == BindUser(old(State()), u, h, now)
    {
      handleOf := handleOf[u := h];
      userOf := userOf[h := u];
      var touched := UpdateWsHandleLastActiveTime(h, now);
      ok := true;
    }

    method UpdateWsHandleLastActiveTime(h: Handle, now: int) returns (ok: bool)
      requires Valid()
      modifies this`lastActive
      ensures Valid() && State() == Touch(old(State()), h, now) && ok == (h in userOf)
    {
      ok := h in userOf;
      if ok {
        lastActive := lastActive[h := now];
      }
    }

    method ReleaseTransmission(t: Id) returns (ghost ended: seq<Call>)
      requires Valid()
      modifies this`hostOf, this`guests, this`calls
      ensures Valid() && State() == DropTransmission(old(State()), t)
      ensures calls == old(calls) + ended
      ensures EndsExactly(ended, old(hostOf), Pairs(old(guests)), Pairs(guests))
    {
      hide EndsExactly, Pairs, SetGuests;
      ended := [];
      EndsNothing(hostOf, Pairs(guests));
      TransmissionFacts.ReleaseKeepsSessionMap(State(), t);
      if t in guests {
        var host := if t in hostOf then hostOf[t] else "";
        var list := guests[t];
        SetSame(guests, t);
        assert list[0..] == list;
        for i := 0 to |list|
          invariant unchanged(this`guests) && unchanged(this`hostOf) && calls == old(calls) + ended
          invariant EndsExactly(ended, hostOf, Pairs(guests), Pairs(SetGuests(guests, t, list[i..])))
        {
          TailExcludes(list, i);
          ErasePair(guests, t, list[i..], list[i + 1..], list[i]);
          EndsOneMore(ended, hostOf, Pairs(guests), Pairs(SetGuests(guests, t, list[i..])), (t, list[i]));
          Concat(old(calls), ended, [Ended(t, host, list[i])]);
          calls := calls + [Ended(t, host, list[i])];
          ended := ended + [Ended(t, host, list[i])];
        }
        SetNone(guests, t, list[|list|..]);
        guests := guests - {t};
      } else {
        assert guests - {t} == guests;
      }
      hostOf := hostOf - {t};
    }

    /** Reports the end of one session, then takes the guest off the transmission's list. */
    method EndSession(t: Id, g: Id, left: seq<Id>)
      requires t in guests && (t, g) in Pairs(guests) && forall x :: x in left <==> x in guests[t] && x != g
      modifies this`guests, this`calls
      ensures guests == SetGuests(old(guests), t, left) && Pairs(guests) == Pairs(old(guests)) - {(t, g)}
      ensures calls == old(calls) + [Ended(t, HostName(hostOf, t), g)]
    {
      var host := if t in hostOf then hostOf[t] else "";
      calls := calls + [Ended(t, host, g)];
      SetGuestsPairs(guests, t, left);
      guests := SetGuests(guests, t, left);
      assert Pairs(guests) == Pairs(old(guests)) - {(t, g)};
    }

    method ReleaseGuestFromTransmission(g: Id) returns (released: bool, ghost ended: seq<Call>)
      requires Valid()
      modifies this`guests, this`calls
      ensures Valid() && State() == DropGuest(old(State()), g)
      ensures calls == old(calls) + ended
      ensures EndsExactly(ended, hostOf, Pairs(old(guests)), Pairs(guests))
      ensures released == (ended != [])
    {
      released, ended := false, [];
      ghost var before := guests;
      var todo := guests.Keys;
      FilterSomeEnds(before, Except(g));
      EndsNothing(hostOf, Pairs(before));
      hide EndsExactly, Filter, FilterSome, FilterGuests, SetGuests, Pairs;
      while todo != {}
        invariant todo <= before.Keys && calls == old(calls) + ended
        invariant guests == FilterSome(before, Except(g), todo)
        invariant EndsExactly(ended, hostOf, Pairs(before), Pairs(guests))
        invariant released == (ended != [])
      {
        var t :| t in todo;
        FilterSomeVisit(before, Except(g), todo, t);
        FilterMembers(guests[t], Except(g));
        todo := todo - {t};
        SetKept(guests, t, g);
        if g !in guests[t] {
          FilterAll(guests[t], Except(g));
        } else {
          EndsOneMore(ended, hostOf, Pairs(before), Pairs(guests), (t, g));
          Concat(old(calls), ended, [Ended(t, HostName(hostOf, t), g)]);
          ended := ended + [Ended(t, HostName(hostOf, t), g)];
          EndSession(t, g, Filter(guests[t], Except(g)));
          released := true;
        }
      }
      FilterSomeEnds(before, Except(g));
      FilterKeepsSessionMap(old(State()), Except(g));
    }

    method DisconnectTransmission(t: Id) returns (ok: bool, ghost ended: seq<Call>)
      requires Valid()
      modifies this`hostOf, this`guests, this`calls
      ensures Valid() && State() == DropTransmission(old(State()), t) && ok
      ensures calls == old(calls) + ended
      ensures EndsExactly(ended, old(hostOf), Pairs(old(guests)), Pairs(guests))
    {
      ok, ended := true, [];
      if t in hostOf {
        ended := ReleaseTransmission(t);
      }
    }

    /** Unbinds a handle and returns the user it was bound to. */
    method ReleaseUserFromWsHandle(h: Handle) returns (u: Id)
      requires Valid()
      modifies this`handleOf, this`userOf, this`lastActive
      ensures Valid() && u == UserOf(old(State()), h) && HandleReleased(old(State()), h, State())
    {
      lastActive := lastActive - {h};
      if h !in userOf {
        return "";
      }
      u := userOf[h];
      userOf := userOf - {h};
      if u in handleOf && SameConnection(handleOf[u], h) {
        var todo := userOf.Keys;
        while todo != {}
          invariant todo <= userOf.Keys
          invariant forall k :: k in userOf.Keys - todo ==> userOf[k] != u
        {
          var k :| k in todo;
          if userOf[k] == u {
            handleOf := handleOf[u := k];
            return;
          }
          todo := todo - {k};
        }
        handleOf := handleOf - {u};
      }
    }

    /** Releases a handle; when it was the user's last one, ends every session the user is in.
        Returns the user who thereby logged out, or "". */
    method ReleaseUserSession(h: Handle) returns (user: Id, ghost d: Departure)
      requires Valid()
      modifies this
      ensures Valid() && d.hdl == h && Departs(old(State()), d) && d.after == State() && user == d.LoggedOut()
      ensures calls == old(calls) + d.calls
    {
      hide EndsExactly, HandleReleased;
      var owner := ReleaseUserFromWsHandle(h);
      d := Departure(h, owner, State(), "", State(), []);
      if owner == "" {
        return "", d;
      }
      var still := HasUserConnection(owner);
      if still {
        return "", d;
      }
      user := owner;
      ghost var pairs := Pairs(guests);
      var released, endedAsGuest := ReleaseGuestFromTransmission(owner);
      ghost var mid := Pairs(guests);
      var t := IsHost(owner);
      ghost var endedAsHost: seq<Call> := [];
      if t != "" {
        endedAsHost := ReleaseTransmission(t);
        EndsCompose(endedAsGuest, endedAsHost, old(hostOf), old(hostOf), pairs, mid, Pairs(guests));
        Concat(old(calls), endedAsGuest, endedAsHost);
      } else {
        assert endedAsGuest + endedAsHost == endedAsGuest;
      }
      d := d.(hosted := t, after := State(), calls := endedAsGuest + endedAsHost);
    }

    method RemoveWsHandleLastActiveTime(h: Handle)
      requires Valid()
      modifies this`lastActive
      ensures Valid() && State() == old(State()).(lastActive := old(lastActive) - {h})
    {
      lastActive := lastActive - {h};
    }

    /** Ends every transmission whose host is gone and every guest who is gone. */
    method PruneDisconnectedTransmissions() returns (pruned: nat, ghost ended: seq<Call>)
      requires Valid()
      modifies this`hostOf, this`guests, this`calls
      ensures Valid() && State() == Prune(old(State()))
      ensures calls == old(calls) + ended && pruned == |ended|
      ensures EndsExactly(ended, old(hostOf), Pairs(old(guests)), Pairs(guests))
    {
      hide EndsExactly, Pairs, SessionMapOk, FilterGuests;
      var disconnected := DisconnectedTransmissions();
      var prunedHosts, endedByHost := PruneHosts(disconnected);
      ghost var mid := State();
      PrunedHosts(old(State()), disconnected);
      HostsAgree(mid, old(hostOf));
      var prunedGuests, endedByGuest := PruneGuests();
      pruned, ended := prunedHosts + prunedGuests, endedByHost + endedByGuest;
      Concat(old(calls), endedByHost, endedByGuest);
      EndsCompose(endedByHost, endedByGuest, old(hostOf), mid.hostOf, Pairs(old(guests)), Pairs(mid.guests),
      Pairs(guests));
    }

    method DisconnectedTransmissions() returns (list: seq<Id>)
      ensures Distinct(list)
      ensures forall t :: t in list <==> t in hostOf && hostOf[t] !in Connected(State())
    {
      list := [];
      var todo := hostOf.Keys;
      while todo != {}
        invariant todo <= hostOf.Keys && Distinct(list)
        invariant forall t :: t in list <==> t in hostOf.Keys - todo && hostOf[t] !in Connected(State())
      {
        var t :| t in todo;
        var connected := HasUserConnection(hostOf[t]);
        if !connected {
          list := list + [t];
        }
        todo := todo - {t};
      }
    }

    method PruneHosts(list: seq<Id>) returns (pruned: nat, ghost ended: seq<Call>)
      requires Valid() && Distinct(list)
      modifies this`hostOf, this`guests, this`calls
      ensures Valid() && State() == old(State()).(hostOf := hostOf, guests := guests)
      ensures hostOf == old(hostOf) - Elements(list) && guests == old(guests) - Elements(list)
      ensures calls == old(calls) + ended && pruned == |ended|
      ensures EndsExactly(ended, old(hostOf), Pairs(old(guests)), Pairs(guests))
    {
      hide EndsExactly, Pairs, SessionMapOk;
      pruned, ended := 0, [];
      assert list[..0] == [] && old(hostOf) - {} == old(hostOf) && old(guests) - {} == old(guests);
      EndsNothing(hostOf, Pairs(guests));
      for i := 0 to |list|
        invariant Valid() && calls == old(calls) + ended && pruned == |ended|
        invariant hostOf == old(hostOf) - Elements(list[..i]) && guests == old(guests) - Elements(list[..i])
        invariant EndsExactly(ended, old(hostOf), Pairs(old(guests)), Pairs(guests))
      {
        ghost var before := State();
        var n, more := PruneHost(list[i]);
        HostsAgree(before, old(hostOf));
        EndsCompose(ended, more, old(hostOf), before.hostOf, Pairs(old(guests)), Pairs(before.guests), Pairs(guests));
        Concat(old(calls), ended, more);
        pruned, ended := pruned + n, ended + more;
        ElementsGrow(list, i);
      }
      assert list[..|list|] == list;
    }

    method PruneHost(t: Id) returns (pruned: nat, ghost ended: seq<Call>)
      requires Valid()
      modifies this`hostOf, this`guests, this`calls
      ensures Valid() && hostOf == old(hostOf) - {t} && guests == old(guests) - {t}
      ensures calls == old(calls) + ended && pruned == |ended|
      ensures EndsExactly(ended, old(hostOf), Pairs(old(guests)), Pairs(guests))
    {
      pruned := if t in guests then |guests[t]| else 0;
      ghost var before := State();
      ended := ReleaseTransmission(t);
      ReleasedCount(before, t, ended);
    }

    method PruneGuests() returns (pruned: nat, ghost ended: seq<Call>)
      requires Valid()
      modifies this`guests, this`calls
      ensures Valid() && guests == FilterGuests(old(guests), Within(Connected(old(State()))))
      ensures calls == old(calls) + ended && pruned == |ended|
      ensures EndsExactly(ended, hostOf, Pairs(old(guests)), Pairs(guests))
    {
      hide EndsExactly, Filter, FilterSome, FilterGuests, Pairs, SetGuests, SessionMapOk, Distinct;
      pruned, ended := 0, [];
      ghost var keep := Within(Connected(State()));
      var todo := guests.Keys;
      NoGuestListEmpty(State());
      EndsNothing(hostOf, Pairs(guests));
      FilterSomeEnds(guests, keep);
      while todo != {}
        invariant todo <= old(guests).Keys && calls == old(calls) + ended && pruned == |ended|
        invariant guests == FilterSome(old(guests), keep, todo)
        invariant EndsExactly(ended, hostOf, Pairs(old(guests)), Pairs(guests))
      {
        var t :| t in todo;
        FilterSomeVisit(old(guests), keep, todo, t);
        ghost var before := guests;
        var n, more := PruneGuestsOf(t);
        EndsCompose(ended, more, hostOf, hostOf, Pairs(old(guests)), Pairs(before), Pairs(guests));
        Concat(old(calls), ended, more);
        pruned, ended := pruned + n, ended + more;
        todo := todo - {t};
      }
      FilterSomeEnds(old(guests), keep);
      FilterKeepsSessionMap(old(State()), keep);
    }

    /** The inner walk over one guest vector, erasing while iterating. */
    method PruneGuestsOf(t: Id) returns (pruned: nat, ghost ended: seq<Call>)
      requires t in guests && Distinct(guests[t])
      modifies this`guests, this`calls
      ensures guests == SetGuests(old(guests), t, Filter(old(guests)[t], Within(Connected(old(State())))))
      ensures calls == old(calls) + ended && pruned == |ended|
      ensures EndsExactly(ended, hostOf, Pairs(old(guests)), Pairs(guests))
    {
      hide EndsExactly, Pairs, Filter, SetGuests, Visiting, Distinct;
      var list := guests[t];
      ghost var all, seen, keep := list, 0, Within(Connected(State()));
      pruned, ended := 0, [];
      var i := 0;
      VisitFirst(all, keep);
      SetSame(guests, t);
      EndsNothing(hostOf, Pairs(guests));
      while i < |list|
        invariant Visiting(all, seen, keep, list, i) && 0 <= seen <= |all|
        invariant calls == old(calls) + ended && pruned == |ended| && guests == old(guests)
        invariant EndsExactly(ended, hostOf, Pairs(guests), Pairs(SetGuests(guests, t, list)))
        decreases |all| - seen
      {
        VisitNext(all, seen, keep, list, i);
        var g := list[i];
        var connected := HasUserConnection(g);
        if connected {
          i := i + 1;
        } else {
          var left := list[..i] + list[i + 1..];
          ErasePair(guests, t, list, left, g);
          EndsOneMore(ended, hostOf, Pairs(guests), Pairs(SetGuests(guests, t, list)), (t, g));
          Concat(old(calls), ended, [Ended(t, HostName(hostOf, t), g)]);
          ended := ended + [Ended(t, HostName(hostOf, t), g)];
          calls := calls + [Ended(t, if t in hostOf then hostOf[t] else "", g)];
          list, pruned := left, pruned + 1;
        }
        seen := seen + 1;
      }
      VisitLast(all, seen, keep, list, i);
      guests := SetGuests(guests, t, list);
    }

    method GetActiveConnectionCount() returns (count: nat)
      requires Valid()
      ensures count == |Pairs(guests)|
    {
      count := 0;
      ghost var counted: set<Pair> := {};
      var todo := hostOf.Keys;
      while todo != {}
        invariant todo <= hostOf.Keys && count == |counted|
        invariant counted == set p | p in Pairs(guests) && p.0 !in todo
      {
        var t :| t in todo;
        todo := todo - {t};
        ghost var more := PairsOf(t, if t in guests then guests[t] else []);
        if t in guests {
          PairsOfSize(t, guests[t]);
          count := count + |guests[t]|;
        }
        assert counted !! more;
        counted := counted + more;
      }
      assert counted == Pairs(guests);
    }

    /** The timeout sweep. The iterator is `todo`: what it still has to visit stays in the map through the
        nested erases. `expired` are the handles whose connection object is gone. */
    method ExpireInactiveSessions(expired: set<Handle>, now: int) returns (ghost tr: Trace)
      requires Valid()
      modifies this
      ensures Valid() && Sweep(old(State()), tr) && State() == AfterAll(old(State()), tr)
      ensures calls == old(calls) + SweepCalls(tr)
      ensures OncePerHandle(tr) && Handles(tr) == Inactive(old(State()), expired, now)
    {
      hide Departs, EndsExactly, Pairs, SessionMapOk, Inactive;
      tr := Still;
      var todo := lastActive.Keys;
      ghost var gone := Inactive(State(), expired, now);
      InactiveAreWatched(State(), expired, now);
      while todo != {}
        invariant Valid() && Sweep(old(State()), tr) && State() == AfterAll(old(State()), tr)
        invariant calls == old(calls) + SweepCalls(tr)
        invariant todo <= lastActive.Keys && OncePerHandle(tr)
        invariant Handles(tr) == gone - todo && lastActive == old(lastActive) - (gone - todo)
      {
        var h :| h in todo;
        todo := todo - {h};
        GivesUp(old(State()), expired, now, h);
        if h in expired || now - lastActive[h] > INACTIVITY_LIMIT_MS {
          ghost var before, made := State(), calls;
          WatchListApart(before, lastActive - {h});
          lastActive := lastActive - {h};
          var user, d := ReleaseUserSession(h);
          DepartsAfterErase(before, d);
          DepartureUnbinds(before, d);
          calls := calls + [TimedOut(h, user)];
          Concat(made, d.calls, [TimedOut(h, user)]);
          Concat(old(calls), SweepCalls(tr), d.calls + [TimedOut(h, user)]);
          tr := Then(tr, d);
        }
      }
    }
  }
}
