/** Rebuilding the in-memory sessions from the rows that survived a restart. */
module Restore {
  import opened Identity
  import Orders
  import opened TextSearch
  import opened Ledger
  import opened Accounting
  import opened Transmission
  import TransmissionFacts
  import opened Delivery

  /** One group of ListRemoteControlSessions. */
  datatype SessionInfo = SessionInfo(transmission: Id, host: Id, guests: seq<Id>)

  /** The listing: one entry per (transmission, host), whose guests went through GROUP_CONCAT and the split.
      `groups[i]` are the guest ids of entry i in the order they were concatenated. */
  ghost predicate Lists(ss: map<SessionKey, SessionRow>, list: seq<SessionInfo>, groups: seq<seq<Id>>) {
    && |list| == |groups|
    && (forall i :: 0 <= i < |list| ==>
          && list[i].guests == SplitIds(Join(groups[i]))
          && groups[i] != []
          && forall g :: g in groups[i] <==> InGroup(ss, list[i].transmission, list[i].host, g))
    && (forall k :: k in ss ==> exists i :: 0 <= i < |list| && IsGroup(list[i], k.0, ss[k].host))
  }

  predicate InGroup(ss: map<SessionKey, SessionRow>, t: Id, h: Id, g: Id) {
    (t, g) in ss && ss[(t, g)].host == h
  }

  predicate IsGroup(info: SessionInfo, t: Id, h: Id) {
    info.transmission == t && info.host == h
  }

  // ---- the two nested loops ---------------------------------------------------------------

  function BindGuests(s: TM, t: Id, guests: seq<Id>): TM {
    if guests == [] then s else BindGuest(BindGuests(s, t, guests[..|guests| - 1]), guests[|guests| - 1], t)
  }

  function BindGuestsCalls(s: TM, t: Id, guests: seq<Id>): seq<Call> {
    if guests == [] then []
    else
      var n := |guests| - 1;
      BindGuestsCalls(s, t, guests[..n])
      + if Joins(BindGuests(s, t, guests[..n]), guests[n], t) then [Started(t, HostName(s.hostOf, t), guests[n])]
      else []
  }

  function RestoreAll(list: seq<SessionInfo>): TM {
    if list == [] then IDLE
    else
      var info := list[|list| - 1];
      BindGuests(BindHost(RestoreAll(list[..|list| - 1]), info.host, info.transmission), info.transmission, info.guests)
  }

  function RestoreCalls(list: seq<SessionInfo>): seq<Call> {
    if list == [] then []
    else
      var info := list[|list| - 1];
      RestoreCalls(list[..|list| - 1])
      + BindGuestsCalls(BindHost(RestoreAll(list[..|list| - 1]), info.host, info.transmission), info.transmission,
      info.guests)
  }

  // ---- what they rebuild ------------------------------------------------------------------

  function GuestPairs(t: Id, guests: seq<Id>): set<Pair> {
    set g | g in guests && g != t :: (t, g)
  }

  function ListedPairs(list: seq<SessionInfo>): set<Pair> {
    set i, g | 0 <= i < |list| && g in list[i].guests && g != list[i].transmission :: (list[i].transmission, g)
  }

  /** Every listed transmission is its own host, and no listed id is empty or holds a NUL character. */
  ghost predicate SelfHosted(list: seq<SessionInfo>) {
    forall i :: 0 <= i < |list| ==>
      list[i].transmission == list[i].host && Name(list[i].host) && Named(list[i].guests)
  }

  predicate Name(id: Id) {
    id != "" && NoNul(id)
  }

  predicate Named(ids: seq<Id>) {
    forall i :: 0 <= i < |ids| ==> Name(ids[i])
  }

  function OwnHosts(pairs: set<Pair>): OpenSessions {
    map p | p in pairs :: p.0
  }

  ghost predicate MemoryRebuilt(s: TM, pairs: set<Pair>) {
    && SessionMapOk(s) && Pairs(s.guests) == pairs
    && (forall t :: t in s.hostOf ==> s.hostOf[t] == t && Name(t))
    && s.handleOf == map[] && s.userOf == map[] && s.lastActive == map[]
  }

  ghost predicate RowsRebuilt(calls: seq<Call>, pairs: set<Pair>, open: OpenSessions, on: set<Id>) {
    && Alternates(calls) && OpenPairs(calls) == pairs
    && RunOpen(open, OpsOf(calls)) == OwnHosts(pairs) + open
    && RunOnline(on, OpsOf(calls)) == on && OnlyStarts(OpsOf(calls), pairs)
  }

  ghost predicate OnlyStarts(ops: seq<Op>, pairs: set<Pair>) {
    forall i :: 0 <= i < |ops| ==> ops[i].StartSession? && (ops[i].transmission, ops[i].guest) in pairs
  }

  /** Memory, call log and rows after the walk over part of the listing. */
  ghost predicate Rebuilt(s: TM, calls: seq<Call>, pairs: set<Pair>, open: OpenSessions, on: set<Id>) {
    MemoryRebuilt(s, pairs) && RowsRebuilt(calls, pairs, open, on)
  }

  lemma OneRowRebuilt(calls: seq<Call>, pairs: set<Pair>, open: OpenSessions, on: set<Id>, t: Id, g: Id)
    requires RowsRebuilt(calls, pairs, open, on) && Name(t) && Name(g) && t != g && (t, g) !in pairs
    ensures RowsRebuilt(calls + [Started(t, t, g)], pairs + {(t, g)}, open, on)
  {
    var c := Started(t, t, g);
    AlternatesOne(calls, c);
    OpsOfOne(calls, c);
    RunOpenOne(open, OpsOf(calls), StartSession(t, t, g));
    RunOnlineOne(on, OpsOf(calls), StartSession(t, t, g));
    hide Alternates, OpenPairs, RunOpen, RunOnline, OpsOf, Stored, NoNul;
    assert StepOpen(OwnHosts(pairs) + open, StartSession(t, t, g)) == Opened(OwnHosts(pairs) + open, t, t, g);
    OpenedAmong(pairs, open, t, g);
  }

  lemma OpenedAmong(pairs: set<Pair>, open: OpenSessions, t: Id, g: Id)
    ensures Opened(OwnHosts(pairs) + open, t, t, g) == OwnHosts(pairs + {(t, g)}) + open
  {
  }

  lemma OneGuestRebuilt(s: TM, calls: seq<Call>, pairs: set<Pair>, open: OpenSessions, on: set<Id>, t: Id, g: Id)
    requires Rebuilt(s, calls, pairs, open, on) && t in s.hostOf && Name(g)
    ensures var more := if Joins(s, g, t) then [Started(t, HostName(s.hostOf, t), g)] else [];
            Rebuilt(BindGuest(s, g, t), calls + more, pairs + GuestPairs(t, [g]), open, on)
  {
    hide RowsRebuilt, SessionMapOk, Pairs, Name;
    TransmissionFacts.BindGuestKeepsSessionMap(s, g, t);
    if Joins(s, g, t) {
      OneRowRebuilt(calls, pairs, open, on, t, g);
      assert pairs + GuestPairs(t, [g]) == pairs + {(t, g)};
    } else {
      assert calls + [] == calls;
      assert pairs + GuestPairs(t, [g]) == pairs;
    }
  }

  lemma {:induction false} GuestsRebuilt(s: TM, calls: seq<Call>, pairs: set<Pair>, open: OpenSessions, on: set<Id>,
                                         t: Id, guests: seq<Id>)
    requires Rebuilt(s, calls, pairs, open, on) && t in s.hostOf && Named(guests)
    ensures Rebuilt(BindGuests(s, t, guests), calls + BindGuestsCalls(s, t, guests), pairs + GuestPairs(t, guests),
        open, on)
    ensures BindGuests(s, t, guests).hostOf == s.hostOf
    decreases |guests|
  {
    if guests == [] {
      assert calls + [] == calls && pairs + GuestPairs(t, []) == pairs;
    } else {
      hide Rebuilt, Joins, GuestPairs, BindGuests, BindGuestsCalls, BindGuest, Named;
      var front, g := guests[..|guests| - 1], guests[|guests| - 1];
      NamedLast(guests);
      GuestsRebuilt(s, calls, pairs, open, on, t, front);
      BindGuestsLast(s, t, guests);
      var made := BindGuestsCalls(s, t, front);
      var mid := BindGuests(s, t, front);
      OneGuestRebuilt(mid, calls + made, pairs + GuestPairs(t, front), open, on, t, g);
      GuestPairsLast(t, guests);
      Orders.Concat(calls, made, if Joins(mid, g, t) then [Started(t, HostName(s.hostOf, t), g)] else []);
      Unions(pairs, GuestPairs(t, front), GuestPairs(t, [g]));
    }
  }

  lemma NamedLast(ids: seq<Id>)
    requires Named(ids) && ids != []
    ensures Named(ids[..|ids| - 1]) && Name(ids[|ids| - 1])
  {
  }

  lemma BindGuestsLast(s: TM, t: Id, guests: seq<Id>)
    requires guests != []
    ensures var front, g := guests[..|guests| - 1], guests[|guests| - 1];
            var mid := BindGuests(s, t, front);
            && BindGuests(s, t, guests) == BindGuest(mid, g, t) && BindGuest(mid, g, t).hostOf == mid.hostOf
            && BindGuestsCalls(s, t, guests) == BindGuestsCalls(s, t, front)
                 + if Joins(mid, g, t) then [Started(t, HostName(s.hostOf, t), g)] else []
  {
  }

  lemma Unions<T>(a: set<T>, b: set<T>, c: set<T>)
    ensures a + b + c == a + (b + c)
  {
  }

  lemma GuestPairsLast(t: Id, guests: seq<Id>)
    requires guests != []
    ensures GuestPairs(t, guests) == GuestPairs(t, guests[..|guests| - 1]) + GuestPairs(t, [guests[|guests| - 1]])
  {
    Orders.SplitLast(guests);
  }

  lemma {:induction false} AllRebuilt(list: seq<SessionInfo>, open: OpenSessions, on: set<Id>)
    requires SelfHosted(list)
    ensures Rebuilt(RestoreAll(list), RestoreCalls(list), ListedPairs(list), open, on)
    ensures RestoreAll(list).hostOf.Keys == set i | 0 <= i < |list| :: list[i].transmission
    decreases |list|
  {
    hide Rebuilt, Name;
    if list == [] {
      NothingRebuilt(open, on);
      assert ListedPairs(list) == {};
    } else {
      var n := |list| - 1;
      var info := list[n];
      AllRebuilt(list[..n], open, on);
      var s := RestoreAll(list[..n]);
      HostRebuilt(s, RestoreCalls(list[..n]), ListedPairs(list[..n]), open, on, info.transmission);
      GuestsRebuilt(BindHost(s, info.host, info.transmission), RestoreCalls(list[..n]), ListedPairs(list[..n]),
                    open, on, info.transmission, info.guests);
      ListedMore(list);
    }
  }

  lemma ListedMore(list: seq<SessionInfo>)
    requires list != []
    ensures var n, info := |list| - 1, list[|list| - 1];
            && ListedPairs(list) == ListedPairs(list[..n]) + GuestPairs(info.transmission, info.guests)
            && (set i | 0 <= i < |list| :: list[i].transmission)
            == (set i | 0 <= i < n :: list[..n][i].transmission) + {info.transmission}
  {
    var n, info := |list| - 1, list[|list| - 1];
    assert forall i :: 0 <= i < n ==> list[..n][i] == list[i];
  }

  lemma NothingRebuilt(open: OpenSessions, on: set<Id>)
    ensures Rebuilt(IDLE, [], {}, open, on)
  {
    assert OwnHosts({}) + open == open;
  }

  lemma HostRebuilt(s: TM, calls: seq<Call>, pairs: set<Pair>, open: OpenSessions, on: set<Id>, t: Id)
    requires Rebuilt(s, calls, pairs, open, on) && Name(t)
    ensures Rebuilt(BindHost(s, t, t), calls, pairs, open, on) && t in BindHost(s, t, t).hostOf
    ensures BindHost(s, t, t).hostOf.Keys == s.hostOf.Keys + {t}
  {
  }

  // ---- when the listing is faithful -------------------------------------------------------

  /** Rows as the server writes them: transmission and host agree, and are not empty in the database either. */
  ghost predicate ServerRows(ss: map<SessionKey, SessionRow>) {
    forall k :: k in ss ==> ss[k].host == k.0 && Name(k.0) && NoNul(k.1)
  }

  /** The row of a guest that the restore can name and that is not the host. */
  predicate Restorable(k: SessionKey) {
    CleanId(k.1) && k.1 != k.0
  }

  ghost predicate AllRestorable(ss: map<SessionKey, SessionRow>) {
    forall k :: k in ss ==> Restorable(k)
  }

  lemma CleanAreNamed(ids: seq<Id>)
    requires forall x :: x in ids ==> CleanId(x) && NoNul(x)
    ensures Named(ids)
  {
    assert forall i :: 0 <= i < |ids| ==> ids[i] in ids;
  }

  lemma ListingIsSelfHosted(ss: map<SessionKey, SessionRow>, list: seq<SessionInfo>, groups: seq<seq<Id>>)
    requires Lists(ss, list, groups) && ServerRows(ss)
    ensures SelfHosted(list)
  {
    hide SplitIds, Join, NoNul;
    forall i | 0 <= i < |list|
      ensures list[i].transmission == list[i].host && Name(list[i].host) && Named(list[i].guests)
    {
      forall g | g in groups[i]
        ensures NoNul(g)
      {
        assert InGroup(ss, list[i].transmission, list[i].host, g);
      }
      SplitIsClean(Join(groups[i]));
      SplitHasNoNul(groups[i]);
      CleanAreNamed(list[i].guests);
      hide Named, Name;
      var g := groups[i][0];
      assert g in groups[i];
      assert InGroup(ss, list[i].transmission, list[i].host, g);
    }
  }

  /** The listing gives back the rows, precisely when every guest's id is non-empty, without a comma and not the
      host's. */
  lemma ListingIsFaithfulIff(ss: map<SessionKey, SessionRow>, list: seq<SessionInfo>, groups: seq<seq<Id>>)
    requires Lists(ss, list, groups) && ServerRows(ss)
    ensures ListedPairs(list) == ss.Keys <==> AllRestorable(ss)
    ensures ss.Keys <= ListedPairs(list) <==> AllRestorable(ss)
    ensures forall p :: p in ListedPairs(list) ==> Restorable(p)
  {
    hide SplitIds, Join, CleanId, NoNul;
    forall p | p in ListedPairs(list)
      ensures Restorable(p)
    {
      var i, g :| 0 <= i < |list| && g in list[i].guests && g != list[i].transmission && (list[i].transmission, g) == p;
      SplitIsClean(Join(groups[i]));
    }
    if AllRestorable(ss) {
      forall p
        ensures p in ListedPairs(list) <==> p in ss.Keys
      {
        if p in ListedPairs(list) {
          var i, g :| 0 <= i < |list| && g in list[i].guests && g != list[i].transmission && (list[i].transmission,
              g) == p;
          GroupIsFaithful(ss, list, groups, i);
          assert InGroup(ss, list[i].transmission, list[i].host, g);
        }
        if p in ss.Keys {
          var i :| 0 <= i < |list| && IsGroup(list[i], p.0, ss[p].host);
          assert InGroup(ss, list[i].transmission, list[i].host, p.1);
          GroupIsFaithful(ss, list, groups, i);
          assert Restorable(p);
          assert p.1 in list[i].guests && (list[i].transmission, p.1) == p;
        }
      }
    }
  }

  lemma GroupIsFaithful(ss: map<SessionKey, SessionRow>, list: seq<SessionInfo>, groups: seq<seq<Id>>, i: nat)
    requires Lists(ss, list, groups) && ServerRows(ss) && i < |list|
    requires AllRestorable(ss)
    ensures forall g :: g in list[i].guests <==> g in groups[i]
  {
    hide SplitIds, Join, CleanId;
    SplitOfJoin(groups[i]);
    forall g | g in groups[i]
      ensures CleanId(g)
    {
      assert InGroup(ss, list[i].transmission, list[i].host, g);
      assert Restorable((list[i].transmission, g));
    }
  }
}
