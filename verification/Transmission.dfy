/** The five routing and session maps of TransmissionManager as a value, what each of its operations does
    to them, and what every such operation keeps. Where the source picks the first match of a map walk, the
    specification allows any match, so the results hold for every iteration order. */
module Transmission {
  import opened Identity
  import Orders

  datatype TM = TM(hostOf: map<Id, Id>,           // transmission to host
                   guests: map<Id, seq<Id>>,      // transmission to guests
                   handleOf: map<Id, Handle>,     // user to the handle messages are sent to
                   userOf: map<Handle, Id>,       // handle to user
                   lastActive: map<Handle, int>)  // handle to time of last activity, in milliseconds

  /** A call of one of the two callbacks. */
  datatype Call =
    | Started(transmission: Id, host: Id, guest: Id)
    | Ended(transmission: Id, host: Id, guest: Id)
    | TimedOut(hdl: Handle, user: Id)

  type Pair = (Id, Id)  // (transmission, guest)

  const INACTIVITY_LIMIT_MS := 10000

  const IDLE := TM(map[], map[], map[], map[], map[])

  // ---- guest lists ------------------------------------------------------------------------

  function Filter(list: seq<Id>, keep: Id -> bool): seq<Id> {
    if list == [] then []
    else
      var last := list[|list| - 1];
      Filter(list[..|list| - 1], keep) + if keep(last) then [last] else []
  }

  lemma {:induction false} FilterMembers(list: seq<Id>, keep: Id -> bool)
    ensures forall g :: g in Filter(list, keep) <==> g in list && keep(g)
    ensures Orders.Distinct(list) ==> Orders.Distinct(Filter(list, keep))
    ensures |Filter(list, keep)| <= |list|
  {
    if list != [] {
      FilterMembers(list[..|list| - 1], keep);
      assert list == list[..|list| - 1] + [list[|list| - 1]];
    }
  }

  lemma {:induction false} FilterAll(list: seq<Id>, keep: Id -> bool)
    requires forall g :: g in list ==> keep(g)
    ensures Filter(list, keep) == list
  {
    if list != [] {
      FilterAll(list[..|list| - 1], keep);
      assert list == list[..|list| - 1] + [list[|list| - 1]];
    }
  }

  function Except(g: Id): Id -> bool {
    x => x != g
  }

  function Within(ids: set<Id>): Id -> bool {
    x => x in ids
  }

  /** Drops what `keep` refuses from every guest list, and lists that become empty altogether. */
  function FilterGuests(guests: map<Id, seq<Id>>, keep: Id -> bool): map<Id, seq<Id>> {
    map t | t in guests && Filter(guests[t], keep) != [] :: Filter(guests[t], keep)
  }

  /** FilterGuests with the transmissions in `todo` still to be visited. */
  function FilterSome(guests: map<Id, seq<Id>>, keep: Id -> bool, todo: set<Id>): map<Id, seq<Id>> {
    map t | t in guests && (t in todo || Filter(guests[t], keep) != []) ::
      if t in todo then guests[t] else Filter(guests[t], keep)
  }

  /** Visiting one transmission of the walk. */
  function SetGuests(guests: map<Id, seq<Id>>, t: Id, list: seq<Id>): map<Id, seq<Id>> {
    if list == [] then guests - {t} else guests[t := list]
  }

  lemma FilterSomeVisit(guests: map<Id, seq<Id>>, keep: Id -> bool, todo: set<Id>, t: Id)
    requires t in todo && todo <= guests.Keys
    ensures t in FilterSome(guests, keep, todo) && FilterSome(guests, keep, todo)[t] == guests[t]
    ensures FilterSome(guests, keep, todo - {t})
         == SetGuests(FilterSome(guests, keep, todo), t, Filter(guests[t], keep))
  {
  }

  lemma FilterSomeEnds(guests: map<Id, seq<Id>>, keep: Id -> bool)
    ensures FilterSome(guests, keep, {}) == FilterGuests(guests, keep)
    ensures (forall t :: t in guests ==> guests[t] != []) ==> FilterSome(guests, keep, guests.Keys) == guests
  {
  }

  lemma SetGuestsPairs(guests: map<Id, seq<Id>>, t: Id, list: seq<Id>)
    ensures forall p :: p in Pairs(SetGuests(guests, t, list)) <==> if p.0 == t then p.1 in list else p in Pairs(guests)
  {
  }

  function Pairs(guests: map<Id, seq<Id>>): set<Pair> {
    set t, g | t in guests && g in guests[t] :: (t, g)
  }

  function HostName(hostOf: map<Id, Id>, t: Id): Id {
    if t in hostOf then hostOf[t] else ""
  }

  /** Guest lists are non-empty, without repeats, belong to an existing transmission and never name its host. */
  ghost predicate SessionMapOk(s: TM) {
    forall t :: t in s.guests ==>
      t in s.hostOf && s.guests[t] != [] && Orders.Distinct(s.guests[t]) && s.hostOf[t] !in s.guests[t]
  }

  // ---- operations -------------------------------------------------------------------------

  function BindHost(s: TM, host: Id, t: Id): TM {
    if t in s.hostOf then s else s.(hostOf := s.hostOf[t := host])
  }

  predicate Joins(s: TM, guest: Id, t: Id) {
    t in s.hostOf && s.hostOf[t] != guest && (t, guest) !in Pairs(s.guests)
  }

  function BindGuest(s: TM, guest: Id, t: Id): TM {
    if !Joins(s, guest, t) then s
    else s.(guests := s.guests[t := (if t in s.guests then s.guests[t] else []) + [guest]])
  }

  function BindUser(s: TM, u: Id, h: Handle, now: int): TM {
    s.(handleOf := s.handleOf[u := h], userOf := s.userOf[h := u], lastActive := s.lastActive[h := now])
  }

  /** A heartbeat counts only for a handle that is logged in. */
  function Touch(s: TM, h: Handle, now: int): TM {
    if h in s.userOf then s.(lastActive := s.lastActive[h := now]) else s
  }

  function DropTransmission(s: TM, t: Id): TM {
    s.(hostOf := s.hostOf - {t}, guests := s.guests - {t})
  }

  function DropGuest(s: TM, g: Id): TM {
    s.(guests := FilterGuests(s.guests, Except(g)))
  }

  function Connected(s: TM): set<Id> {
    s.userOf.Values
  }

  function Prune(s: TM): TM {
    var hostOf := map t | t in s.hostOf && s.hostOf[t] in Connected(s) :: s.hostOf[t];
    s.(hostOf := hostOf,
       guests := FilterGuests(map t | t in s.guests && t in hostOf :: s.guests[t], Within(Connected(s))))
  }

  function UserOf(s: TM, h: Handle): Id {
    if h in s.userOf then s.userOf[h] else ""
  }

  function HandleOf(s: TM, u: Id): Handle {
    if u in s.handleOf then s.handleOf[u] else NoOwner
  }

  /** IsHost: some transmission the user hosts, or "" when there is none. */
  predicate Hosted(s: TM, u: Id, t: Id) {
    (t in s.hostOf && s.hostOf[t] == u) || (t == "" && u !in s.hostOf.Values)
  }

  /** ReleaseUserFromWsHandle: unbinds the handle; the user's messages move to any other handle it has. */
  predicate HandleReleased(s: TM, h: Handle, after: TM) {
    var u := UserOf(s, h);
    && after.hostOf == s.hostOf && after.guests == s.guests
    && after.lastActive == s.lastActive - {h} && after.userOf == s.userOf - {h}
    && if h !in s.userOf || u !in s.handleOf || !SameConnection(s.handleOf[u], h) then after.handleOf == s.handleOf
       else if u in Connected(after) then
         && u in after.handleOf && after.handleOf == s.handleOf[u := after.handleOf[u]]
         && UserOf(after, after.handleOf[u]) == u && after.handleOf[u] in after.userOf
       else after.handleOf == s.handleOf - {u}
  }

  /** One ReleaseUserSession: the handle it releases, the state without that handle, the transmission it
      found the user hosting, the final state and the callbacks it made. */
  datatype Departure = Departure(hdl: Handle, owner: Id, unbound: TM, hosted: Id, after: TM, calls: seq<Call>) {
    /** The user whose last handle this was, or "". */
    function LoggedOut(): Id {
      if owner == "" || owner in Connected(unbound) then "" else owner
    }
  }

  ghost predicate Departs(s: TM, d: Departure) {
    && d.owner == UserOf(s, d.hdl)
    && HandleReleased(s, d.hdl, d.unbound)
    && if d.LoggedOut() == "" then d.after == d.unbound && d.calls == []
       else
         var left := DropGuest(d.unbound, d.owner);
         && Hosted(left, d.owner, d.hosted)
         && d.after == (if d.hosted == "" then left else DropTransmission(left, d.hosted))
         && EndsExactly(d.calls, s.hostOf, Pairs(s.guests), Pairs(d.after.guests))
  }

  /** Dropping guests keeps the session map consistent, and drops exactly the refused pairs. */
  lemma FilterKeepsSessionMap(s: TM, keep: Id -> bool)
    requires SessionMapOk(s)
    ensures SessionMapOk(s.(guests := FilterGuests(s.guests, keep)))
    ensures Pairs(FilterGuests(s.guests, keep)) == set p | p in Pairs(s.guests) && keep(p.1)
  {
    hide Filter;
    forall t | t in s.guests
      ensures forall g :: g in Filter(s.guests[t], keep) <==> g in s.guests[t] && keep(g)
      ensures Orders.Distinct(Filter(s.guests[t], keep))
    {
      FilterMembers(s.guests[t], keep);
    }
  }

  /** The departures of a timeout sweep, last one outermost. */
  datatype Trace = Still | Then(before: Trace, last: Departure)

  function Handles(tr: Trace): set<Handle> {
    if tr.Still? then {} else Handles(tr.before) + {tr.last.hdl}
  }

  predicate OncePerHandle(tr: Trace) {
    tr.Still? || (OncePerHandle(tr.before) && tr.last.hdl !in Handles(tr.before))
  }

  function AfterAll(s: TM, tr: Trace): TM {
    if tr.Still? then s else tr.last.after
  }

  ghost predicate Sweep(s: TM, tr: Trace) {
    tr.Still? || (Sweep(s, tr.before) && Departs(AfterAll(s, tr.before), tr.last))
  }

  /** What the timeout sweep calls back: the ends of each departure, then its timeout. */
  function SweepCalls(tr: Trace): seq<Call> {
    if tr.Still? then [] else SweepCalls(tr.before) + (tr.last.calls + [TimedOut(tr.last.hdl, tr.last.LoggedOut())])
  }

  /** The sweep erases the handle from the watch list before it releases the session; that changes nothing. */
  lemma DepartsAfterErase(s: TM, d: Departure)
    requires Departs(s.(lastActive := s.lastActive - {d.hdl}), d)
    ensures Departs(s, d)
  {
    hide EndsExactly, Pairs;
    assert s.lastActive - {d.hdl} - {d.hdl} == s.lastActive - {d.hdl};
  }

  lemma DepartureUnbinds(s: TM, d: Departure)
    requires Departs(s, d)
    ensures d.after.userOf == s.userOf - {d.hdl} && d.after.lastActive == s.lastActive - {d.hdl}
    ensures d.after.handleOf == d.unbound.handleOf && d.unbound.userOf == d.after.userOf
  {
  }

  /** The watched handles a sweep at `now` gives up: dead ones and those silent for over ten seconds. */
  function Inactive(s: TM, expired: set<Handle>, now: int): set<Handle> {
    set h | h in s.lastActive && (h in expired || now - s.lastActive[h] > INACTIVITY_LIMIT_MS)
  }

  lemma HostsAgree(s: TM, hostOf: map<Id, Id>)
    requires SessionMapOk(s)
    requires forall t :: t in s.hostOf ==> t in hostOf && hostOf[t] == s.hostOf[t]
    ensures forall p :: p in Pairs(s.guests) ==> HostName(s.hostOf, p.0) == HostName(hostOf, p.0)
  {
  }

  // ---- callbacks --------------------------------------------------------------------------

  /** The calls end, once each, exactly the pairs that are in `before` and no longer in `after`. */
  ghost predicate EndsExactly(calls: seq<Call>, hostOf: map<Id, Id>, before: set<Pair>, after: set<Pair>) {
    && after <= before
    && (forall i :: 0 <= i < |calls| ==>
          && calls[i].Ended? && calls[i].host == HostName(hostOf, calls[i].transmission)
          && (calls[i].transmission, calls[i].guest) in before - after)
    && (forall p :: p in before - after ==> Ended(p.0, HostName(hostOf, p.0), p.1) in calls)
    && Orders.Distinct(calls)
  }

  lemma EndsNothing(hostOf: map<Id, Id>, before: set<Pair>)
    ensures EndsExactly([], hostOf, before, before)
  {
  }

  lemma EndsOneMore(calls: seq<Call>, hostOf: map<Id, Id>, before: set<Pair>, after: set<Pair>, p: Pair)
    requires EndsExactly(calls, hostOf, before, after) && p in after
    ensures EndsExactly(calls + [Ended(p.0, HostName(hostOf, p.0), p.1)], hostOf, before, after - {p})
  {
  }

  lemma EndsCompose(a: seq<Call>, b: seq<Call>, hostOf: map<Id, Id>, hostOf': map<Id, Id>,
                    before: set<Pair>, mid: set<Pair>, after: set<Pair>)
    requires EndsExactly(a, hostOf, before, mid) && EndsExactly(b, hostOf', mid, after)
    requires forall p :: p in mid - after ==> HostName(hostOf', p.0) == HostName(hostOf, p.0)
    ensures EndsExactly(a + b, hostOf, before, after)
  {
    forall p | p in before - after
      ensures Ended(p.0, HostName(hostOf, p.0), p.1) in a + b
    {
      if p in mid {
        assert Ended(p.0, HostName(hostOf', p.0), p.1) in b;
      } else {
        assert Ended(p.0, HostName(hostOf, p.0), p.1) in a;
      }
    }
  }

  /** There are as many end callbacks as sessions went away. */
  lemma {:induction false} EndsCount(calls: seq<Call>, hostOf: map<Id, Id>, before: set<Pair>, after: set<Pair>)
    requires EndsExactly(calls, hostOf, before, after)
    ensures |calls| == |before| - |after|
    decreases |calls|
  {
    var gone := before - after;
    assert |gone| == |before| - |after| by {
      assert before == gone + after && gone !! after;
    }
    if calls == [] {
      if p :| p in gone {
        assert false;
      }
    } else {
      var n := |calls| - 1;
      var p := (calls[n].transmission, calls[n].guest);
      assert EndsExactly(calls[..n], hostOf, before, after + {p}) by {
        forall q | q in before - (after + {p})
          ensures Ended(q.0, HostName(hostOf, q.0), q.1) in calls[..n]
        {
          assert Ended(q.0, HostName(hostOf, q.0), q.1) in calls;
        }
      }
      EndsCount(calls[..n], hostOf, before, after + {p});
    }
  }

  function PairsOf(t: Id, list: seq<Id>): set<Pair> {
    set g | g in list :: (t, g)
  }

  lemma {:induction false} PairsOfSize(t: Id, list: seq<Id>)
    requires Orders.Distinct(list)
    ensures |PairsOf(t, list)| == |list|
  {
    if list != [] {
      var n := |list| - 1;
      PairsOfSize(t, list[..n]);
      assert list == list[..n] + [list[n]];
      assert PairsOf(t, list) == PairsOf(t, list[..n]) + {(t, list[n])};
    }
  }

  function ListOf(guests: map<Id, seq<Id>>, t: Id): seq<Id> {
    if t in guests then guests[t] else []
  }

  lemma PairsSplit(guests: map<Id, seq<Id>>, t: Id)
    ensures forall p :: p in Pairs(guests) <==> p in Pairs(guests - {t}) || p in PairsOf(t, ListOf(guests, t))
    ensures Pairs(guests - {t}) !! PairsOf(t, ListOf(guests, t))
  {
  }

  lemma PairsRelease(s: TM, t: Id)
    ensures |Pairs(s.guests)| == |Pairs(s.guests - {t})| + |PairsOf(t, ListOf(s.guests, t))|
  {
    hide *;
    PairsSplit(s.guests, t);
    assert Pairs(s.guests) == Pairs(s.guests - {t}) + PairsOf(t, ListOf(s.guests, t));
  }

  lemma ReleasedCount(s: TM, t: Id, calls: seq<Call>)
    requires SessionMapOk(s)
    requires EndsExactly(calls, s.hostOf, Pairs(s.guests), Pairs(DropTransmission(s, t).guests))
    ensures |calls| == if t in s.guests then |s.guests[t]| else 0
  {
    hide EndsExactly, Pairs, PairsOf;
    EndsCount(calls, s.hostOf, Pairs(s.guests), Pairs(s.guests - {t}));
    PairsOfSize(t, ListOf(s.guests, t));
    PairsRelease(s, t);
  }
}
