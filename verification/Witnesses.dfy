/** Runs in which the agreements fail, one for each assumption about clients: what the conditions shut out does happen.
    All of them start on a database that does not exist yet; everything happens within the first second of the
    database's clock. */
module Witnesses {
  import opened Identity
  import opened Options
  import opened Ledger
  import opened Accounting
  import opened Transmission
  import opened TransmissionFacts
  import opened Delivery
  import opened Restore
  import opened ServerModel
  import opened ServerSafety
  import opened ServerRuns
  import Geo = GeoDistribution
  import GeoReport

  // ---- building runs ----------------------------------------------------------------------

  predicate AtOnce(h: seq<Entry>) {
    forall i :: 0 <= i < |h| ==> h[i].at == 1
  }

  function Recording(h: seq<Entry>, ops: seq<Op>): seq<Entry> {
    h + seq(|ops|, i requires 0 <= i < |ops| => Entry(ops[i], 1))
  }

  lemma RecordingRecords(h: seq<Entry>, ops: seq<Op>)
    requires AtOnce(h)
    ensures Recorded(h, ops, Recording(h, ops)) && AtOnce(Recording(h, ops))
    ensures LastTime(1, Recording(h, ops)) == 1
  {
    var after := Recording(h, ops);
    assert after[..|h|] == h;
  }

  /** A run that ends in `s`, with the database still in its first second. */
  ghost predicate Reaches(states: seq<Server>, actions: seq<Action>, s: Server) {
    IsRun(states, actions) && states[|states| - 1] == s && AtOnce(s.history)
  }

  lemma Goes(states: seq<Server>, actions: seq<Action>, s: Server, a: Action, s': Server)
    requires Reaches(states, actions, s) && Next(s, a, s') && AtOnce(s'.history)
    ensures Reaches(states + [s'], actions + [a], s')
    ensures |states| >= 1 && (states + [s'])[|states| - 1] == s && (actions + [a])[|actions|] == a
  {
    hide Next;
    var more, acts := states + [s'], actions + [a];
    forall i | 0 <= i < |acts|
      ensures Next(more[i], acts[i], more[i + 1])
    {
      if i < |actions| {
        assert Next(states[i], actions[i], states[i + 1]);
      }
    }
  }

  /** The state after a login of an id that the login accepts. */
  function LoggedIn(s: Server, h: Handle, u: Id, now: int): Server {
    Server(AfterLogin(s.tm, h, Some(u), now),
           s.online + (if IsTrackedDevice(u) then {u} else {}), s.web + (if IsWebClient(u) then {u} else {}),
           s.log, Recording(s.history, [SetOnline(u)]))
  }

  lemma LogsIn(states: seq<Server>, actions: seq<Action>, s: Server, h: Handle, u: Id, now: int)
    requires Reaches(states, actions, s) && u != ""
    ensures Next(s, Login(h, Some(u), false, now), LoggedIn(s, h, u, now))
    ensures Reaches(states + [LoggedIn(s, h, u, now)], actions + [Login(h, Some(u), false, now)],
                    LoggedIn(s, h, u, now))
  {
    hide Recorded, AfterLogin, LoginOps, IsTrackedDevice, IsWebClient, IsRun, Recording, AtOnce, UserOf, LoggedIn;
    LoginIsStep(s, h, u, now);
    Goes(states, actions, s, Login(h, Some(u), false, now), LoggedIn(s, h, u, now));
  }

  lemma LoginIsStep(s: Server, h: Handle, u: Id, now: int)
    requires AtOnce(s.history) && u != ""
    ensures Next(s, Login(h, Some(u), false, now), LoggedIn(s, h, u, now)) && AtOnce(LoggedIn(s, h, u, now).history)
  {
    hide Recorded, IsTrackedDevice, IsWebClient, Recording, AtOnce;
    var s' := LoggedIn(s, h, u, now);
    RecordingRecords(s.history, [SetOnline(u)]);
    assert UserOf(s'.tm, h) == u;
    assert LoginOps(Some(u), false, u) == [SetOnline(u)];
    hide AfterLogin, LoginOps, UserOf;
    assert LoginStep(s, Login(h, Some(u), false, now), s');
  }

  /** One user is logged in on one socket. */
  lemma FirstLogin(h: Handle, u: Id, now: int) returns (states: seq<Server>, actions: seq<Action>, s: Server)
    requires h.Conn? && u != "" && NoNul(u)
    ensures Reaches(states, actions, s) && Invariant(s) && s == LoggedIn(BLANK, h, u, now)
    ensures s.tm == TM(map[u := u], map[], map[u := h], map[h := u], map[h := now])
    ensures forall i :: 0 <= i < |actions| ==> Polite(states[i], actions[i])
  {
    hide Invariant;
    s := LoggedIn(BLANK, h, u, now);
    states, actions := [BLANK] + [s], [] + [Login(h, Some(u), false, now)];
    LogsIn([BLANK], [], BLANK, h, u, now);
    assert Polite(states[0], actions[0]);
    assert states[1] == s;
    RunsAreSafe(states, actions, 1);
  }

  // ---- a second id on the same socket ----------------------------------------------------

  lemma SecondBind(tm: TM, h: Handle, u: Id, v: Id)
    requires h.Conn? && u != v && tm == TM(map[u := u], map[], map[u := h], map[h := u], map[h := 0])
    ensures LastHandle(tm, h) && tm.userOf[h] == u
    ensures var after := AfterLogin(tm, h, Some(v), 1);
            !RoutingOk(after) && HandleOf(after, u) == h && UserOf(after, h) == v && Connected(after) == {v}
  {
    var after := AfterLogin(tm, h, Some(v), 1);
    assert (tm.userOf - {h}).Values == {};
    assert after.userOf == map[h := v] && after.handleOf[u] == h;
    assert after.userOf.Values == {v};
  }

  /** One socket logs in as `u` and then as `v`: messages for `u` now go to a socket of `v`, and `u` is online
      for ever. */
  lemma SecondLoginBreaks(h: Handle, u: Id, v: Id) returns (states: seq<Server>, actions: seq<Action>, s: Server)
    requires h.Conn? && u != "" && v != "" && u != v && NoNul(u)
    ensures Reaches(states, actions, s)
    ensures !RoutingOk(s.tm) && !PresenceAgrees(s)
    ensures HandleOf(s.tm, u) == h && UserOf(s.tm, h) == v && u in OnlineOf(Db(s)) && u !in Connected(s.tm)
  {
    hide Run, OpenOf, OnlineOf, Recorded, Reaches, SessionMapOk, RoutingOk, PresenceAgrees, Core, Connected, AfterLogin,
        LastHandle, IsTrackedDevice, IsWebClient, HandleOf, UserOf, Mirror, CleanGuests, LoginOps, Recording;
    var s1;
    states, actions, s1 := FirstLogin(h, u, 0);
    var a := Login(h, Some(v), false, 1);
    s := LoggedIn(s1, h, v, 1);
    LogsIn(states, actions, s1, h, v, 1);
    states, actions := states + [s], actions + [a];
    SecondBind(s1.tm, h, u, v);
    LoginKeepsPresenceIff(s1, a, s);
    LoginKeepsCore(s1, a, s);
    HandleConnects(s1.tm, h);
    ConnectedIsOnline(s1, u);
  }

  lemma ConnectedIsOnline(s: Server, u: Id)
    requires PresenceAgrees(s) && u in Connected(s.tm)
    ensures u in OnlineOf(Db(s))
  {
    hide Run, Connected;
  }

  // ---- the empty id -----------------------------------------------------------------------

  function Joined(s: Server, a: Action): Server
    requires a.Join?
  {
    var calls := JoinCalls(s.tm, a);
    s.(tm := if JoinAllowed(s.tm, a) then BindGuest(s.tm, a.user, a.transmission) else s.tm,
       log := s.log + calls, history := Recording(s.history, OpsOf(calls)))
  }

  lemma NobodyByJoin(tm: TM, a: Action)
    requires a.Join?
    ensures LoggedOutBy(JoinCalls(tm, a)) == {}
  {
    hide JoinAllowed, Joins;
    assert forall c :: c in JoinCalls(tm, a) ==> c.Started?;
  }

  lemma JoinIsStep(s: Server, a: Action)
    requires a.Join? && AtOnce(s.history) && (a.verified ==> Stored(a.transmission) != "")
    ensures JoinStep(s, a, Joined(s, a)) && AtOnce(Joined(s, a).history)
  {
    hide Recorded, JoinCalls, JoinAllowed, BindGuest, TakesIn, LoggedOutBy, OpsOf, Recording, AtOnce;
    var calls := JoinCalls(s.tm, a);
    RecordingRecords(s.history, OpsOf(calls));
    NobodyByJoin(s.tm, a);
    NobodyLeaves(s, calls, Joined(s, a));
  }

  lemma JoinsIn(states: seq<Server>, actions: seq<Action>, s: Server, a: Action)
    requires Reaches(states, actions, s) && a.Join? && (a.verified ==> Stored(a.transmission) != "")
    ensures Next(s, a, Joined(s, a)) && Reaches(states + [Joined(s, a)], actions + [a], Joined(s, a))
  {
    hide Joined, JoinStep, AtOnce, IsRun;
    JoinIsStep(s, a);
    Goes(states, actions, s, a, Joined(s, a));
  }

  lemma EmptyIdMayJoin(tm: TM, h: Handle, other: Handle, t: Id, a: Action)
    requires h.Conn? && h != other && t != "" && tm == TM(map[t := t], map[], map[t := h], map[h := t], map[h := 0])
    requires a == Join(other, "", t, true, {})
    ensures JoinAllowed(tm, a) && Joins(tm, "", t) && JoinCalls(tm, a) == [Started(t, t, "")]
  {
  }

  /** A socket that never logged in joins under the empty id: memory has a session that the database refused. */
  lemma EmptyIdBreaks(h: Handle, other: Handle, t: Id) returns (states: seq<Server>, actions: seq<Action>, s: Server)
    requires h.Conn? && h != other && t != "" && NoNul(t)
    ensures Reaches(states, actions, s) && !Mirror(s)
    ensures (t, "") in Pairs(s.tm.guests) && (t, "") !in OpenOf(Db(s))
  {
    hide Run, OpenOf, Recorded, Reaches, SessionMapOk, Pairs, JoinStep, Joined, JoinAllowed, Joins, JoinCalls, Mirror,
        Core, RoutingOk, PresenceAgrees, CleanGuests, LoggedIn;
    var s1;
    states, actions, s1 := FirstLogin(h, t, 0);
    var a := Join(other, "", t, true, {});
    s := Joined(s1, a);
    JoinsIn(states, actions, s1, a);
    states, actions := states + [s], actions + [a];
    EmptyIdMayJoin(s1.tm, h, other, t, a);
    JoinKeepsMirrorIff(s1, a, s);
    JoinKeepsCore(s1, a, s);
    MirrorMeans(s1);
    NoEmptyGuest(s1);
  }

  lemma NoEmptyGuest(s: Server)
    requires Invariant(s)
    ensures forall t :: (t, "") !in Pairs(s.tm.guests)
  {
  }

  // ---- a comma in a guest's id --------------------------------------------------------------

  function Beaten(s: Server): Server {
    s.(history := Recording(s.history, [Heartbeat]))
  }

  lemma Beats(states: seq<Server>, actions: seq<Action>, s: Server)
    requires Reaches(states, actions, s)
    ensures Next(s, Beat, Beaten(s)) && Reaches(states + [Beaten(s)], actions + [Beat], Beaten(s))
    ensures Db(Beaten(s)) == Db(s).(lastSeen := 1)
  {
    assert Recording(s.history, [Heartbeat]) == s.history + [Entry(Heartbeat, 1)];
    hide Recorded, Run, AtOnce, Recording;
    RecordingRecords(s.history, [Heartbeat]);
    RunOneMore(s.history, Entry(Heartbeat, 1));
    assert Next(s, Beat, Beaten(s));
    Goes(states, actions, s, Beat, Beaten(s));
  }

  function Reopened(s: Server, list: seq<SessionInfo>): Server {
    Server(RestoreAll(list), {}, {}, RestoreCalls(list),
           Recording(Recording(s.history, [Recover]), OpsOf(RestoreCalls(list))))
  }

  /** A restart right after a heartbeat keeps the rows. */
  lemma Reopens(states: seq<Server>, actions: seq<Action>, s: Server, list: seq<SessionInfo>, groups: seq<seq<Id>>)
    requires Reaches(states, actions, s) && Db(s).lastSeen == 1 && Lists(Db(s).sessions, list, groups)
    ensures var a, s' := Restart(list, groups), Reopened(s, list);
            && Next(s, a, s') && Reaches(states + [s'], actions + [a], s')
            && |s.history| < |s'.history| && Run(EMPTY, Recovered(s, s')).sessions == Db(s).sessions
  {
    hide Run, Recorded, Lists, RestoreAll, RestoreCalls, OpsOf, Recording, AtOnce, Recovered;
    var a, s' := Restart(list, groups), Reopened(s, list);
    var recovered := Recording(s.history, [Recover]);
    RecordingRecords(s.history, [Recover]);
    RecordingRecords(recovered, OpsOf(RestoreCalls(list)));
    RecoverLeavesRows(s.history);
    HistoryGrows(s, s', OpsOf(RestoreCalls(list)));
    assert RestartStep(s, a, s');
    Goes(states, actions, s, a, s');
  }

  lemma RecoverLeavesRows(h: seq<Entry>)
    requires Run(EMPTY, h).lastSeen == 1
    ensures Run(EMPTY, Recording(h, [Recover])).sessions == Run(EMPTY, h).sessions
  {
    assert Recording(h, [Recover]) == h + [Entry(Recover, 1)];
    RunOneMore(h, Entry(Recover, 1));
    hide Run, RecoveredRow;
  }

  lemma HistoryGrows(s: Server, s': Server, ops: seq<Op>)
    requires s'.history == Recording(Recording(s.history, [Recover]), ops)
    ensures |s.history| < |s'.history| && Recovered(s, s') == Recording(s.history, [Recover])
  {
  }

  lemma SecondMayJoin(tm: TM, h: Handle, other: Handle, t: Id, g: Id, a: Action)
    requires h.Conn? && h != other && t != "" && g != "" && t != g && a == Join(other, g, t, true, {})
    requires tm == TM(map[t := t], map[], map[t := h], map[h := t], map[h := 0])
    ensures UserOf(tm, other) == ""
    ensures var after := AfterLogin(tm, other, Some(g), 0);
            JoinAllowed(after, a) && Joins(after, g, t) && Pairs(after.guests) == {}
  {
    var after := AfterLogin(tm, other, Some(g), 0);
    assert after.guests == map[] && after.hostOf[t] == t && after.handleOf[t] == h && after.userOf[other] == g;
  }

  /** Two sockets are logged in, and the second user is in a session with the first. */
  lemma OneSession(h: Handle, other: Handle, t: Id, g: Id)
      returns (states: seq<Server>, actions: seq<Action>, s: Server)
    requires h.Conn? && other.Conn? && h != other && t != "" && g != "" && t != g && NoNul(t) && NoNul(g)
    ensures Reaches(states, actions, s) && Core(s) && Mirror(s) && Pairs(s.tm.guests) == {(t, g)}
  {
    hide Run, OpenOf, Recorded, Reaches, Invariant, Next, JoinStep, JoinCalls, Joined, Mirror, Core, Pairs, JoinAllowed,
        Joins, AfterLogin, UserOf, Recording, IsTrackedDevice, IsWebClient;
    var s1;
    states, actions, s1 := FirstLogin(h, t, 0);
    var login, s2 := Login(other, Some(g), false, 0), LoggedIn(s1, other, g, 0);
    LogsIn(states, actions, s1, other, g, 0);
    states, actions := states + [s2], actions + [login];
    var join := Join(other, g, t, true, {});
    s := Joined(s2, join);
    JoinsIn(states, actions, s2, join);
    states, actions := states + [s], actions + [join];
    SecondMayJoin(s1.tm, h, other, t, g, join);
    StepKeepsInvariant(s1, login, s2);
    JoinFromHere(s2, join, s);
  }

  lemma JoinFromHere(s: Server, a: Action, s': Server)
    requires Invariant(s) && a.Join? && Next(s, a, s') && Pairs(s.tm.guests) == {}
    requires JoinAllowed(s.tm, a) && Joins(s.tm, a.user, a.transmission) && IsRecorded(a.transmission, a.user)
    ensures Core(s') && Mirror(s') && Pairs(s'.tm.guests) == {(a.transmission, a.user)}
  {
    hide Run, OpenOf, Recorded, JoinStep, Mirror, Core, Pairs, JoinAllowed, Joins;
    JoinKeepsMirrorIff(s, a, s');
    JoinKeepsCore(s, a, s');
  }

  /** The listing of a table with one row. */
  lemma OneRowListed(rows: map<SessionKey, SessionRow>, t: Id, g: Id)
    requires rows.Keys == {(t, g)} && rows[(t, g)].host == t
    ensures Lists(rows, [SessionInfo(t, t, TextSearch.SplitIds(TextSearch.Join([g])))], [[g]])
  {
    hide TextSearch.SplitIds, TextSearch.Join;
    var list := [SessionInfo(t, t, TextSearch.SplitIds(TextSearch.Join([g])))];
    assert IsGroup(list[0], t, t);
    forall x
      ensures x in [g] <==> InGroup(rows, t, t, x)
    {
    }
  }

  lemma OnlyRow(s: Server, t: Id, g: Id)
    requires Core(s) && Mirror(s) && Pairs(s.tm.guests) == {(t, g)}
    ensures Db(s).sessions.Keys == {(t, g)} && Db(s).sessions[(t, g)].host == t
  {
    MirrorMeans(s);
    OpenKeys(Db(s));
    hide Run, Pairs, Mirror, Alternates, OpenPairs;
    assert OpenOf(Db(s))[(t, g)] == t;
  }

  /** A session whose guest's id holds a comma survives a restart in the database but not in memory. */
  lemma CommaBreaks(h: Handle, other: Handle, t: Id, g: Id)
      returns (states: seq<Server>, actions: seq<Action>, s: Server)
    requires h.Conn? && other.Conn? && h != other && t != "" && g != "" && t != g && ',' in g
    requires NoNul(t) && NoNul(g)
    ensures Reaches(states, actions, s) && !Mirror(s)
    ensures (t, g) in Db(s).sessions && (t, g) !in Pairs(s.tm.guests)
  {
    var s1;
    states, actions, s1 := OneSession(h, other, t, g);
    var s2 := Beaten(s1);
    Beats(states, actions, s1);
    states, actions := states + [s2], actions + [Beat];
    OnlyRow(s1, t, g);
    OneRowListed(Db(s2).sessions, t, g);
    var list, groups := [SessionInfo(t, t, TextSearch.SplitIds(TextSearch.Join([g])))], [[g]];
    s := Reopened(s2, list);
    Reopens(states, actions, s2, list, groups);
    var restart := Restart(list, groups);
    states, actions := states + [s], actions + [restart];
    hide Run, Reaches, Mirror, Core, Pairs, Beaten, Reopened, Lists, Next, Recorded;
    StepKeepsCore(s1, Beat, s2);
    CommaIsLost(s2, restart, s, t, g);
  }

  lemma CommaIsLost(s: Server, a: Action, s': Server, t: Id, g: Id)
    requires Core(s) && a.Restart? && Next(s, a, s') && |s.history| < |s'.history|
    requires (t, g) in Run(EMPTY, Recovered(s, s')).sessions && ',' in g
    ensures !Mirror(s') && (t, g) in Db(s').sessions && (t, g) !in Pairs(s'.tm.guests)
  {
    hide Run, Recorded, Mirror, Core, Pairs, Lists, RestartStep, Recovered, RoutingOk, PresenceAgrees;
    RestartMirrorsIff(s, a, s');
    RestartKeepsRows(s, a, s');
    RestartKeepsCore(s, a, s');
    CleanPair(s', t, g);
  }

  lemma CleanPair(s: Server, t: Id, g: Id)
    requires CleanGuests(s.tm) && ',' in g
    ensures (t, g) !in Pairs(s.tm.guests)
  {
    hide Pairs;
  }

  // ---- a NUL character in an id -------------------------------------------------------------

  lemma LoginAlone(h: Handle, u: Id)
    ensures var s := LoggedIn(BLANK, h, u, 0);
            && Connected(s.tm) == {u}
            && Db(s) == Tables(map[Stored(u) := PresenceRow(true, 1, 1, 0, 0, 0, NO_CLIENT)], map[], 0)
  {
    hide Stored;
    var s := LoggedIn(BLANK, h, u, 0);
    ValuesAfter(map[], h, u);
    assert s.tm.userOf == map[][h := u];
    assert s.history == [] + [Entry(SetOnline(u), 1)];
    RunOneMore([], Entry(SetOnline(u), 1));
  }

  /** Somebody logs in under an id with a NUL character: what comes before that character is online in the database, and
      nobody is bound to it. */
  lemma NulLoginBreaks(h: Handle, u: Id) returns (states: seq<Server>, actions: seq<Action>, s: Server)
    requires h.Conn? && u != "" && !NoNul(u)
    ensures Reaches(states, actions, s) && !PresenceAgrees(s)
    ensures u in Connected(s.tm) && u !in OnlineOf(Db(s))
    ensures Stored(u) in OnlineOf(Db(s)) && Stored(u) !in Connected(s.tm)
  {
    hide Run, Recording, AfterLogin, IsTrackedDevice, IsWebClient, NoNul, Stored;
    s := LoggedIn(BLANK, h, u, 0);
    LogsIn([BLANK], [], BLANK, h, u, 0);
    states, actions := [BLANK] + [s], [] + [Login(h, Some(u), false, 0)];
    LoginAlone(h, u);
  }

  /** Such an id joins: memory has the session under the whole id, the database under what comes before the NUL
      character. */
  lemma NulJoinBreaks(h: Handle, other: Handle, t: Id, g: Id)
      returns (states: seq<Server>, actions: seq<Action>, s: Server)
    requires h.Conn? && other.Conn? && h != other && t != "" && g != "" && NoNul(t) && !NoNul(g)
    ensures Reaches(states, actions, s) && !Mirror(s)
    ensures (t, g) in Pairs(s.tm.guests) && (t, g) !in OpenOf(Db(s))
    ensures (t, Stored(g)) in OpenOf(Db(s)) && (t, Stored(g)) !in Pairs(s.tm.guests)
  {
    hide Run, OpenOf, Recorded, Reaches, Invariant, Next, JoinStep, JoinCalls, Joined, Mirror, Core, Pairs, JoinAllowed,
        Joins, AfterLogin, UserOf, Recording, IsTrackedDevice, IsWebClient, Stored, NoNul;
    var s1;
    states, actions, s1 := FirstLogin(h, t, 0);
    var login, s2 := Login(other, Some(g), false, 0), LoggedIn(s1, other, g, 0);
    LogsIn(states, actions, s1, other, g, 0);
    states, actions := states + [s2], actions + [login];
    var join := Join(other, g, t, true, {});
    s := Joined(s2, join);
    JoinsIn(states, actions, s2, join);
    states, actions := states + [s], actions + [join];
    SecondMayJoin(s1.tm, h, other, t, g, join);
    MirroredAfterLogin(s1, login, s2);
    NulFromHere(s2, join, s);
  }

  lemma MirroredAfterLogin(s: Server, a: Action, s': Server)
    requires Invariant(s) && a.Login? && Next(s, a, s')
    ensures Core(s') && Mirror(s')
  {
    hide Core, Mirror, LoginStep;
    LoginKeepsCore(s, a, s');
    LoginKeepsMirror(s, a, s');
  }

  lemma NulFromHere(s: Server, a: Action, s': Server)
    requires Core(s) && Mirror(s) && a.Join? && Next(s, a, s') && Pairs(s.tm.guests) == {}
    requires JoinAllowed(s.tm, a) && Joins(s.tm, a.user, a.transmission)
    requires a.user != "" && NoNul(a.transmission) && !NoNul(a.user)
    ensures !Mirror(s') && var t, g := a.transmission, a.user;
            && (t, g) in Pairs(s'.tm.guests) && (t, g) !in OpenOf(Db(s'))
            && (t, Stored(g)) in OpenOf(Db(s')) && (t, Stored(g)) !in Pairs(s'.tm.guests)
  {
    JoinRegisters(s, a, s');
    hide Run, OpenOf, Recorded, JoinStep, Mirror, Core, Pairs, JoinAllowed, Joins, Stored, NoNul, Registered;
    JoinKeepsMirrorIff(s, a, s');
    JoinKeepsCore(s, a, s');
    MirrorMeans(s);
  }

  // ---- a sweep inside a login ---------------------------------------------------------------

  /** The departure of a user who has one socket and no session. */
  function Alone(h: Handle, u: Id): Departure {
    var unbound := TM(map[u := u], map[], map[], map[], map[]);
    Departure(h, u, unbound, u, IDLE, [])
  }

  lemma AloneDeparts(tm: TM, h: Handle, u: Id, now: int)
    requires h.Conn? && u != "" && tm == TM(map[u := u], map[], map[u := h], map[h := u], map[h := now])
    ensures var d := Alone(h, u);
            Departs(tm, d) && d.LoggedOut() == u && d.hdl == h && d.after == IDLE && d.calls == []
  {
    var d := Alone(h, u);
    assert tm.userOf - {h} == map[] && tm.handleOf - {u} == map[] && tm.lastActive - {h} == map[];
    assert Connected(d.unbound) == {} && HandleReleased(tm, h, d.unbound);
    var left := DropGuest(d.unbound, u);
    assert left == d.unbound && left.hostOf[u] == u;
    assert DropTransmission(left, u) == IDLE;
    assert Pairs(tm.guests) == {} == Pairs(IDLE.guests);
    EndsNothing(tm.hostOf, {});
  }

  function SweptOut(s: Server, h: Handle, u: Id): Server {
    Server(IDLE, s.online - {u}, s.web - {u}, s.log + [TimedOut(h, u)], Recording(s.history, [SetOffline(u)]))
  }

  lemma SweepIsStep(s: Server, h: Handle, u: Id, now: int)
    requires AtOnce(s.history) && h.Conn? && u != ""
    requires s.tm == TM(map[u := u], map[], map[u := h], map[h := u], map[h := now])
    requires s.online == (if IsTrackedDevice(u) then {u} else {}) && s.web == (if IsWebClient(u) then {u} else {})
    ensures Next(s, Timeouts({h}, now, Then(Still, Alone(h, u))), SweptOut(s, h, u))
    ensures AtOnce(SweptOut(s, h, u).history)
  {
    hide Departs, Recorded, OpsOf, LoggedOutBy, IsTrackedDevice, IsWebClient, Inactive, Recording, AtOnce, SweepCalls,
        Sweep, OncePerHandle, AfterAll, Handles, TakesIn, Alone;
    var calls, s' := [TimedOut(h, u)], SweptOut(s, h, u);
    AloneDeparts(s.tm, h, u, now);
    RecordingRecords(s.history, [SetOffline(u)]);
    OneCallOut(h, u);
    OneSilent(s.tm, h, u, now);
    OneDeparture(s.tm, Alone(h, u));
    assert [] + calls == calls;
    OneLeaves(s, calls, u, s');
  }

  lemma OneLeaves(s: Server, calls: seq<Call>, u: Id, s': Server)
    requires LoggedOutBy(calls) == {u} && Recorded(s.history, OpsOf(calls), s'.history)
    requires s'.online == s.online - {u} && s'.web == s.web - {u}
    requires s.online == (if IsTrackedDevice(u) then {u} else {}) && s.web == (if IsWebClient(u) then {u} else {})
    ensures TakesIn(s, calls, s')
  {
    hide Recorded, OpsOf, LoggedOutBy, IsTrackedDevice, IsWebClient;
  }

  lemma OneDeparture(tm: TM, d: Departure)
    requires Departs(tm, d)
    ensures var trace := Then(Still, d);
            && Sweep(tm, trace) && OncePerHandle(trace) && AfterAll(tm, trace) == d.after && Handles(trace) == {d.hdl}
            && SweepCalls(trace) == d.calls + [TimedOut(d.hdl, d.LoggedOut())]
  {
    hide Departs;
    var trace := Then(Still, d);
    assert Sweep(tm, Still) && OncePerHandle(Still) && Handles(Still) == {} && SweepCalls(Still) == [];
    assert Handles(trace) == {} + {d.hdl};
    assert [] + (d.calls + [TimedOut(d.hdl, d.LoggedOut())]) == d.calls + [TimedOut(d.hdl, d.LoggedOut())];
  }

  lemma OneSilent(tm: TM, h: Handle, u: Id, now: int)
    requires tm == TM(map[u := u], map[], map[u := h], map[h := u], map[h := now])
    ensures Inactive(tm, {h}, now) == {h}
  {
  }

  lemma OneCallOut(h: Handle, u: Id)
    requires u != ""
    ensures OpsOf([TimedOut(h, u)]) == [SetOffline(u)] && LoggedOutBy([TimedOut(h, u)]) == {u}
  {
    assert [] + [TimedOut(h, u)] == [TimedOut(h, u)] && [] + [SetOffline(u)] == [SetOffline(u)];
    OpsOfOne([], TimedOut(h, u));
  }

  lemma FreshSocket(h: Handle, u: Id) returns (states: seq<Server>, actions: seq<Action>, s: Server)
    requires h.Conn? && u != "" && NoNul(u)
    ensures Reaches(states, actions, s) && Invariant(s) && UserOf(s.tm, h) == u && AtOnce(s.history)
    ensures s.tm == TM(map[u := u], map[], map[u := h], map[h := u], map[h := 0])
    ensures s.online == (if IsTrackedDevice(u) then {u} else {}) && s.web == (if IsWebClient(u) then {u} else {})
  {
    hide IsRun, Invariant, Recording, AfterLogin, IsTrackedDevice, IsWebClient;
    states, actions, s := FirstLogin(h, u, 0);
    FreshlyOnline(h, u);
  }

  lemma SweptOutRun(h: Handle, u: Id) returns (states: seq<Server>, actions: seq<Action>, s: Server)
    requires h.Conn? && u != "" && NoNul(u)
    ensures Reaches(states, actions, s) && |states| >= 2 && UserOf(states[|states| - 2].tm, h) == u
    ensures Invariant(s) && s.tm == IDLE
  {
    hide *;
    var s1;
    states, actions, s1 := FreshSocket(h, u);
    var a := Timeouts({h}, 0, Then(Still, Alone(h, u)));
    s := SweptOut(s1, h, u);
    SweptIsIdle(s1, h, u);
    SweepIsStep(s1, h, u, 0);
    SweepsArePolite(s1, a);
    StepKeepsInvariant(s1, a, s);
    Goes(states, actions, s1, a, s);
    states, actions := states + [s], actions + [a];
  }

  lemma SweepsArePolite(s: Server, a: Action)
    requires a.Timeouts?
    ensures Polite(s, a)
  {
  }

  /** A sweep that gives up a socket while its user repeats a login: the login found the user bound, the sweep logs the
      user out, and then the presence step puts it online, with no socket and for ever. */
  lemma SweepInsideLogin(h: Handle, u: Id) returns (states: seq<Server>, actions: seq<Action>, s: Server, s': Server)
    requires h.Conn? && u != "" && NoNul(u)
    ensures Reaches(states, actions, s) && |states| >= 2 && UserOf(states[|states| - 2].tm, h) == u
    ensures PresenceStep(s, u, s') && !PresenceAgrees(s') && u in OnlineOf(Db(s')) && Connected(s'.tm) == {}
  {
    states, actions, s := SweptOutRun(h, u);
    assert AtOnce(s.history);
    hide *;
    s' := LatelyOnline(s, u);
  }

  lemma SweptIsIdle(s: Server, h: Handle, u: Id)
    ensures SweptOut(s, h, u).tm == IDLE
  {
  }

  lemma FreshlyOnline(h: Handle, u: Id)
    ensures LoggedIn(BLANK, h, u, 0).online == (if IsTrackedDevice(u) then {u} else {})
    ensures LoggedIn(BLANK, h, u, 0).web == (if IsWebClient(u) then {u} else {})
  {
  }

  lemma LatelyOnline(s: Server, u: Id) returns (s': Server)
    requires Invariant(s) && AtOnce(s.history) && s.tm == IDLE && NoNul(u)
    ensures PresenceStep(s, u, s') && !PresenceAgrees(s') && u in OnlineOf(Db(s')) && Connected(s'.tm) == {}
  {
    hide IsTrackedDevice, IsWebClient, Run, PresenceAgrees, Core, OnlineOf, Stored, NoNul;
    s' := Inserted(s, u).(history := Recording(s.history, [SetOnline(u)]));
    RecordingRecords(s.history, [SetOnline(u)]);
    CoreIsSorted(s);
    LatePresenceStepIff(s, u, s');
    PutOnline(s, u, s');
  }

  lemma PutOnline(s: Server, u: Id, s': Server)
    requires Sorted(1, s.history) && PresenceStep(s, u, s')
    ensures Stored(u) in OnlineOf(Db(s'))
  {
    OneRuns(OpenOf(Db(s)), OnlineOf(Db(s)), SetOnline(u));
    hide Run, OpenOf, OnlineOf, Recorded, Stored;
    DbFollows(s, [SetOnline(u)], s');
  }

  // ---- the geographic reports -----------------------------------------------------------------

  /** The rows of the table as the query sees them, with whatever places the columns hold. */
  predicate RowsOfServer(rows: map<Id, GeoReport.GeoRow>, presence: map<Id, PresenceRow>) {
    rows.Keys == presence.Keys && forall d :: d in rows ==> rows[d].online == presence[d].online
  }

  /** While memory and database agree, the online clients the two reports start from are the same but for
      controllers. */
  lemma SameClients(s: Server, rows: map<Id, GeoReport.GeoRow>)
    requires PresenceAgrees(s) && RowsOfServer(rows, Db(s).presence)
    ensures s.online + s.web == set d | d in rows && rows[d].online && !IsCloneClient(d)
  {
    hide Run, Connected, NoNul;
    assert forall d :: d in OnlineOf(Db(s)) <==> d in rows && rows[d].online;
    forall d
      ensures IsTrackedDevice(d) || IsWebClient(d) <==> !IsCloneClient(d)
    {
      EveryoneIsOneKind(d);
    }
    hide IsTrackedDevice, IsWebClient, IsCloneClient;
  }

  /** A client whose id begins with "c-" logs in: the two reports over the same clients and places differ. */
  lemma LowerCaseIdBreaks(h: Handle, u: Id, rules: Geo.Rules)
      returns (states: seq<Server>, actions: seq<Action>, s: Server, rows: map<Id, GeoReport.GeoRow>)
    requires h.Conn? && HasPrefix(u, "c-") && NoNul(u) && Geo.KindOf(rules, Geo.NOWHERE) == Geo.Unknown
    ensures Reaches(states, actions, s) && RowsOfServer(rows, Db(s).presence)
    ensures GeoReport.SameData(s.online + s.web, map[], rows)
    ensures forall memory, table ::
              && GeoReport.Reports(memory, GeoReport.MemoryKinds(s.online + s.web, map[], rules), s.online + s.web)
              && GeoReport.Reports(table, GeoReport.TableKinds(rows, rules), GeoReport.Selected(rows))
              ==> memory != table
  {
    assert u[0] == "c-"[0] && u != "";
    hide Run, Reaches, Invariant, LoggedIn, RowsOfServer, PresenceAgrees, RowsWithoutPlaces;
    states, actions, s := FirstLogin(h, u, 0);
    rows := RowsWithoutPlaces(Db(s).presence);
    LowerCaseIsTracked(h, u);
    RowsAreServers(s);
    forall memory, table |
      && GeoReport.Reports(memory, GeoReport.MemoryKinds(s.online + s.web, map[], rules), s.online + s.web)
      && GeoReport.Reports(table, GeoReport.TableKinds(rows, rules), GeoReport.Selected(rows))
      ensures memory != table
    {
      GeoReport.ReportsAgreeIff(s.online + s.web, map[], rows, rules, memory, table);
    }
  }

  lemma RowsAreServers(s: Server)
    requires Invariant(s)
    ensures var rows := RowsWithoutPlaces(Db(s).presence);
            && RowsOfServer(rows, Db(s).presence) && GeoReport.SameData(s.online + s.web, map[], rows)
  {
    hide Run, Core, Mirror, RoutingOk, CleanGuests, PresenceAgrees;
    SameClients(s, RowsWithoutPlaces(Db(s).presence));
  }

  function RowsWithoutPlaces(presence: map<Id, PresenceRow>): map<Id, GeoReport.GeoRow> {
    map d | d in presence :: GeoReport.GeoRow(presence[d].online, Geo.NOWHERE)
  }

  lemma LowerCaseIsTracked(h: Handle, u: Id)
    requires HasPrefix(u, "c-")
    ensures u in LoggedIn(BLANK, h, u, 0).online
  {
    assert u[0] == 'c' && "web-"[0] == 'w' && "C-"[0] == 'C';
  }
}
