/** The server's invariant: kept by every step, and exactly when each client assumption is needed. */
module ServerSafety {
  import opened Identity
  import opened Options
  import opened Ledger
  import opened Accounting
  import opened Transmission
  import opened TransmissionFacts
  import opened Delivery
  import Restore
  import opened ServerModel
  import opened ServerSteps

  // ---- memory and rows --------------------------------------------------------------------

  lemma InMemoryOwnHosts(tm: TM)
    requires SessionMapOk(tm) && SelfHosting(tm)
    ensures InMemory(tm) == Restore.OwnHosts(Pairs(tm.guests))
  {
    forall p | p in Pairs(tm.guests)
      ensures HostName(tm.hostOf, p.0) == p.0
    {
    }
  }

  /** With self-hosted transmissions, memory mirrors the rows when the keys agree. */
  lemma MirrorMeans(s: Server)
    requires Core(s)
    ensures Mirror(s) <==> OpenOf(Db(s)).Keys == Pairs(s.tm.guests)
  {
    hide Alternates, OpenPairs, SessionMapOk, Pairs, InMemory;
    InMemoryOwnHosts(s.tm);
    if OpenOf(Db(s)).Keys == Pairs(s.tm.guests) {
      assert OpenOf(Db(s)) == Restore.OwnHosts(Pairs(s.tm.guests));
    } else {
      assert Restore.OwnHosts(Pairs(s.tm.guests)).Keys == Pairs(s.tm.guests);
    }
  }

  lemma DbFollows(s: Server, ops: seq<Op>, s': Server)
    requires Recorded(s.history, ops, s'.history) && forall i :: 0 <= i < |ops| ==> ops[i] != Recover
    ensures OpenOf(Db(s')) == RunOpen(OpenOf(Db(s)), ops)
    ensures OnlineOf(Db(s')) == RunOnline(OnlineOf(Db(s)), ops)
    ensures Sorted(1, s'.history)
  {
    hide OpenOf, OnlineOf, Run, RunOpen, RunOnline;
    RecordedFollows(s.history, ops, s'.history);
  }

  lemma EmptyIsWellFormed()
    ensures WellFormed(EMPTY, 1)
  {
  }

  /** The ids in the tables are as the database holds them. */
  lemma TablesHoldStoredIds(s: Server)
    requires Sorted(1, s.history)
    ensures forall k :: k in OpenOf(Db(s)) ==> k.0 != "" && NoNul(k.0) && NoNul(k.1)
    ensures forall d :: d in OnlineOf(Db(s)) ==> NoNul(d)
  {
    hide Run, Sorted, NoNul;
    WellFormedRun(EMPTY, 1, s.history) by {
      EmptyIsWellFormed();
    }
    forall k | k in Db(s).sessions
      ensures SessionOk(Db(s), k, LastTime(1, s.history))
    {
    }
  }

  // ---- steps that end sessions ------------------------------------------------------------

  /** A step in which sessions end and users log out, as the callbacks `calls` report. */
  ghost predicate SettledStep(s: Server, calls: seq<Call>, s': Server) {
    && Settles(s.tm, calls, s'.tm, s.log, OpenOf(Db(s)), OnlineOf(Db(s)))
    && TakesIn(s, calls, s')
    && InTune(s'.tm, s'.log)
    && SessionMapOk(s'.tm)
    && (forall t :: t in s'.tm.hostOf ==> t in s.tm.hostOf && s'.tm.hostOf[t] == s.tm.hostOf[t])
  }

  lemma SettledRows(s: Server, calls: seq<Call>, s': Server)
    requires Core(s) && SettledStep(s, calls, s')
    ensures OpenOf(Db(s')) == OpenOf(Db(s)) - KeysOf(Pairs(s.tm.guests) - Pairs(s'.tm.guests))
    ensures OnlineOf(Db(s')) == OnlineOf(Db(s)) - StoredUsers(LoggedOutBy(calls))
    ensures Core(s')
  {
    hide OpenOf, OnlineOf, Run, RunOpen, RunOnline, Recorded, Alternates, OpenPairs, SessionMapOk, Pairs,
        LoggedOutBy, OpsOf, KeysOf, StoredUsers;
    CallsNeverRecover(calls);
    DbFollows(s, OpsOf(calls), s');
  }

  /** The sessions of a mirrored memory have ids that reach the database whole. */
  lemma MirroredAreWhole(s: Server)
    requires Core(s) && Mirror(s) && CleanGuests(s.tm)
    ensures OpenOf(Db(s)).Keys == Pairs(s.tm.guests)
    ensures forall p :: p in Pairs(s.tm.guests) ==> Whole(p)
  {
    hide OpenOf, OnlineOf, Run, SessionMapOk, SelfHosting, CallsInTurn, SelfHostedRows, Mirror, Pairs, NoNul;
    TablesHoldStoredIds(s);
    MirrorMeans(s);
  }

  /** So the rows that are left after some of them ended are the sessions that are left. */
  lemma RowsLeft(s: Server, left: set<Pair>)
    requires Core(s) && Mirror(s) && CleanGuests(s.tm) && left <= Pairs(s.tm.guests)
    ensures (OpenOf(Db(s)) - KeysOf(Pairs(s.tm.guests) - left)).Keys == left
  {
    hide *;
    MirroredAreWhole(s);
    KeysOfWhole(Pairs(s.tm.guests) - left);
  }

  lemma SettledKeepsMirror(s: Server, calls: seq<Call>, s': Server)
    requires Core(s) && SettledStep(s, calls, s') && CleanGuests(s.tm)
    ensures Mirror(s) ==> Mirror(s')
    ensures CleanGuests(s'.tm)
  {
    hide Core, Mirror, OpenOf, OnlineOf, Run, TakesIn, InTune, SessionMapOk, LoggedOutBy, RunOpen, RunOnline, OpsOf,
        Alternates, OpenPairs, Pairs, KeysOf, StoredUsers;
    SettledRows(s, calls, s');
    MirrorMeans(s');
    if Mirror(s) {
      RowsLeft(s, Pairs(s'.tm.guests));
    }
  }

  lemma SettledKeepsPresence(s: Server, calls: seq<Call>, s': Server)
    requires Core(s) && SettledStep(s, calls, s') && PresenceAgrees(s) && LoggedOutBy(calls) <= Connected(s.tm)
    requires Connected(s'.tm) == Connected(s.tm) - LoggedOutBy(calls)
    ensures PresenceAgrees(s')
  {
    hide Core, OpenOf, OnlineOf, Run, Settles, InTune, SessionMapOk, Recorded, LoggedOutBy, Connected, OpsOf, NoNul,
        StoredUsers;
    SettledRows(s, calls, s');
    CoreIsSorted(s);
    TablesHoldStoredIds(s);
    StoredUsersWhole(LoggedOutBy(calls));
  }

  // ---- each step keeps the core -----------------------------------------------------------

  lemma EndingIsSettled(s: Server, ended: seq<Call>, s': Server)
    requires Core(s) && EndsSessions(s, ended, s') && SessionMapOk(s'.tm)
    requires forall t :: t in s'.tm.hostOf ==> t in s.tm.hostOf && s'.tm.hostOf[t] == s.tm.hostOf[t]
    ensures SettledStep(s, ended, s') && LoggedOutBy(ended) == {}
  {
    hide OpenOf, OnlineOf, Run, RunOpen, RunOnline, Recorded, SessionMapOk, Pairs, LoggedOutBy, OpsOf, EndsExactly;
    EndsSettle(s.tm, ended, s'.tm, s.log, OpenOf(Db(s)), OnlineOf(Db(s)));
  }

  lemma LeaveKeepsSessionMap(tm: TM, user: Id, t: Id)
    requires SessionMapOk(tm)
    ensures SessionMapOk(AfterLeave(tm, user, t))
  {
    hide SessionMapOk, Filter, FilterGuests;
    ReleaseKeepsSessionMap(tm, t);
    FilterKeepsSessionMap(tm, Except(user));
  }

  lemma CloseIsSettled(s: Server, d: Departure, s': Server)
    requires Core(s) && CloseStep(s, d, s')
    ensures SettledStep(s, d.calls + [TimedOut(d.hdl, d.LoggedOut())], s')
    ensures LoggedOutBy(d.calls + [TimedOut(d.hdl, d.LoggedOut())]) <= Connected(s.tm)
    ensures RoutingOk(s.tm) ==>
              RoutingOk(s'.tm)
              && Connected(s'.tm) == Connected(s.tm) - LoggedOutBy(d.calls + [TimedOut(d.hdl, d.LoggedOut())])
  {
    hide OpenOf, OnlineOf, Run, RunOpen, RunOnline, Recorded, SessionMapOk, Pairs, LoggedOutBy, OpsOf, Departs,
         Alternates, OpenPairs, Connected, RoutingOk, SelfHosting, SelfHostedRows, Sorted;
    DepartureSettles(s.tm, d, s.log, OpenOf(Db(s)), OnlineOf(Db(s)));
    DepartedWasConnected(s.tm, d);
    DepartureKeepsSessionMap(s.tm, d);
    DepartureHosts(s.tm, d);
    if RoutingOk(s.tm) {
      DepartureKeepsRouting(s.tm, d);
      DepartureConnected(s.tm, d);
    }
  }

  lemma TimeoutsAreSettled(s: Server, a: Action, s': Server)
    requires Core(s) && a.Timeouts? && TimeoutStep(s, a, s')
    ensures SettledStep(s, SweepCalls(a.trace), s')
    ensures LoggedOutBy(SweepCalls(a.trace)) <= Connected(s.tm)
    ensures RoutingOk(s.tm) ==>
              RoutingOk(s'.tm) && Connected(s'.tm) == Connected(s.tm) - LoggedOutBy(SweepCalls(a.trace))
  {
    hide OpenOf, OnlineOf, Run, RunOpen, RunOnline, Recorded, SessionMapOk, Pairs, LoggedOutBy, OpsOf, Sweep,
         Alternates, OpenPairs, Connected, RoutingOk, SweepCalls, SelfHosting, SelfHostedRows, Sorted, Inactive;
    SweepSettles(s.tm, a.trace, s.log, OpenOf(Db(s)), OnlineOf(Db(s)));
    SweptWereConnected(s.tm, a.trace);
    SweepKeepsInvariants(s.tm, a.trace);
  }

  lemma NobodyLeaves(s: Server, calls: seq<Call>, s': Server)
    requires LoggedOutBy(calls) == {} && s'.online == s.online && s'.web == s.web
    requires Recorded(s.history, OpsOf(calls), s'.history)
    ensures TakesIn(s, calls, s')
  {
  }

  lemma LeftoversAreOpen(ops: seq<Op>, t: Id, open: OpenSessions)
    requires EndsLeftovers(ops, t, open) && ops != []
    ensures exists k :: k in open && k.0 == t
  {
    assert (t, ops[0].guest) in open;
  }

  /** After the end callbacks of a transmission no row of it is open, if memory mirrored the database. */
  lemma AdminLeavesNoRows(s: Server, a: Action, s': Server)
    requires Core(s) && a.AdminDisconnect? && AdminStep(s, a, s') && Mirror(s) && CleanGuests(s.tm)
    ensures a.leftovers == []
    ensures Settles(s.tm, a.ended, s'.tm, s.log, OpenOf(Db(s)), OnlineOf(Db(s))) && LoggedOutBy(a.ended) == {}
  {
    hide OpenOf, OnlineOf, Run, RunOpen, RunOnline, Recorded, SessionMapOk, LoggedOutBy, OpsOf, EndsExactly,
         Alternates, OpenPairs, SelfHosting, SelfHostedRows, Sorted, Mirror, Pairs, DropTransmission, EndsLeftovers,
         KeysOf, StoredUsers, CleanGuests;
    ReleaseKeepsSessionMap(s.tm, a.transmission);
    EndsSettle(s.tm, a.ended, s'.tm, s.log, OpenOf(Db(s)), OnlineOf(Db(s)));
    RowsLeft(s, Pairs(s'.tm.guests));
    var open := RunOpen(OpenOf(Db(s)), OpsOf(a.ended));
    assert open.Keys == Pairs(s'.tm.guests);
    if a.leftovers != [] {
      LeftoversAreOpen(a.leftovers, a.transmission, open);
    }
  }

  /** An admin disconnect finds no leftover rows when memory mirrors the database and every guest is named. */
  lemma AdminIsSettled(s: Server, a: Action, s': Server)
    requires Core(s) && a.AdminDisconnect? && AdminStep(s, a, s') && Mirror(s) && CleanGuests(s.tm)
    ensures a.leftovers == [] && SettledStep(s, a.ended, s') && LoggedOutBy(a.ended) == {}
  {
    hide OpenOf, OnlineOf, Run, RunOpen, RunOnline, Recorded, SessionMapOk, LoggedOutBy, OpsOf, EndsExactly,
         Alternates, OpenPairs, SelfHosting, SelfHostedRows, Sorted, Mirror, Pairs, EndsLeftovers, CleanGuests, KeysOf,
         StoredUsers;
    AdminLeavesNoRows(s, a, s');
    ReleaseKeepsSessionMap(s.tm, a.transmission);
    assert OpsOf(a.ended) + [] == OpsOf(a.ended);
    NobodyLeaves(s, a.ended, s');
  }

  // ---- login ------------------------------------------------------------------------------

  lemma LoginRuns(open: OpenSessions, on: set<Id>, accepted: Option<Id>, registered: bool, id: Id)
    ensures RunOpen(open, LoginOps(accepted, registered, id)) == open
    ensures RunOnline(on, LoginOps(accepted, registered, id)) == on + if id != "" then {Stored(id)} else {}
    ensures var ops := LoginOps(accepted, registered, id); forall i :: 0 <= i < |ops| ==> ops[i] != Recover
  {
    hide RunOpen, RunOnline, IsTrackedDevice, Stored;
    var first: seq<Op> :=
      if accepted.Some? && registered && IsTrackedDevice(accepted.value) then [ClientInfo(accepted.value, NO_CLIENT)]
      else [];
    NothingRuns(open, on);
    if first != [] {
      assert first == [first[0]];
      OneRuns(open, on, first[0]);
    }
    if id != "" {
      RunOpenOne(open, first, SetOnline(id));
      RunOnlineOne(on, first, SetOnline(id));
    } else {
      assert first + [] == first;
    }
  }

  lemma OneRuns(open: OpenSessions, on: set<Id>, op: Op)
    ensures RunOpen(open, [op]) == StepOpen(open, op) && RunOnline(on, [op]) == StepOnline(on, op)
  {
    assert [] + [op] == [op];
    RunOpenOne(open, [], op);
    RunOnlineOne(on, [], op);
  }

  lemma VersionRuns(s: Server, a: Action, s': Server)
    requires a.ReportVersion? && VersionStep(s, a, s')
    ensures OpenOf(Db(s')) == OpenOf(Db(s)) && OnlineOf(Db(s')) == OnlineOf(Db(s)) && Sorted(1, s'.history)
  {
    var ops := VersionOps(s.tm, a);
    if ops != [] {
      OneRuns(OpenOf(Db(s)), OnlineOf(Db(s)), ops[0]);
    }
    hide OpenOf, OnlineOf, Run, Recorded;
    DbFollows(s, ops, s');
  }

  lemma LoginKeepsCore(s: Server, a: Action, s': Server)
    requires Core(s) && a.Login? && LoginStep(s, a, s')
    ensures Core(s') && Pairs(s'.tm.guests) == Pairs(s.tm.guests)
    ensures OpenOf(Db(s')) == OpenOf(Db(s))
    ensures var id := UserOf(s'.tm, a.hdl);
            OnlineOf(Db(s')) == OnlineOf(Db(s)) + if id != "" then {Stored(id)} else {}
  {
    hide OpenOf, OnlineOf, Run, RunOpen, RunOnline, Recorded, Alternates, OpenPairs, LoginOps, Stored;
    var id := UserOf(s'.tm, a.hdl);
    LoginRuns(OpenOf(Db(s)), OnlineOf(Db(s)), a.accepted, a.registered, id);
    DbFollows(s, LoginOps(a.accepted, a.registered, id), s');
  }

  lemma LoginKeepsMirror(s: Server, a: Action, s': Server)
    requires Core(s) && a.Login? && LoginStep(s, a, s') && Mirror(s)
    ensures Mirror(s')
  {
    LoginKeepsCore(s, a, s');
    MirrorMeans(s);
    MirrorMeans(s');
  }

  /** The handle is the only one its user has. */
  predicate LastHandle(tm: TM, h: Handle) {
    h in tm.userOf && tm.userOf[h] !in (tm.userOf - {h}).Values
  }

  lemma LoginConnects(tm: TM, u: Id, h: Handle, now: int)
    ensures var after := AfterLogin(tm, h, Some(u), now);
            && UserOf(after, h) == u
            && Connected(after) == Connected(tm)
                 - (if LastHandle(tm, h) then {tm.userOf[h]} else {}) + {u}
  {
    var after := AfterLogin(tm, h, Some(u), now);
    assert after.userOf == (tm.userOf - {h})[h := u];
    ValuesAfter(tm.userOf - {h}, h, u);
    OthersConnected(tm, h);
  }

  lemma ValuesAfter(m: map<Handle, Id>, h: Handle, u: Id)
    requires h !in m
    ensures m[h := u].Values == m.Values + {u}
  {
    assert m[h := u][h] == u;
    forall v | v in m.Values
      ensures v in m[h := u].Values
    {
      var k :| k in m && m[k] == v;
      assert m[h := u][k] == v;
    }
  }

  lemma OthersConnected(tm: TM, h: Handle)
    ensures (tm.userOf - {h}).Values == Connected(tm) - if LastHandle(tm, h) then {tm.userOf[h]} else {}
  {
    forall v | v in Connected(tm)
      ensures v in (tm.userOf - {h}).Values <==> !(LastHandle(tm, h) && v == tm.userOf[h])
    {
      var k :| k in tm.userOf && tm.userOf[k] == v;
      if k != h {
        assert (tm.userOf - {h})[k] == v;
      }
    }
  }

  /** The set of connected users after a login. */
  lemma LoginConnected(s: Server, a: Action, s': Server)
    requires a.Login? && LoginStep(s, a, s') && RoutingOk(s.tm)
    ensures var id := UserOf(s'.tm, a.hdl);
            if a.accepted.Some? && LastHandle(s.tm, a.hdl) && s.tm.userOf[a.hdl] != a.accepted.value then
              s.tm.userOf[a.hdl] in Connected(s.tm) && s.tm.userOf[a.hdl] !in Connected(s'.tm)
                  && id != s.tm.userOf[a.hdl]
            else
              Connected(s'.tm) == Connected(s.tm) + if id != "" then {id} else {}
  {
    hide Recorded, LoginOps, IsTrackedDevice, IsWebClient;
    if a.hdl in s.tm.userOf {
      HandleConnects(s.tm, a.hdl);
    }
    if a.accepted.Some? {
      LoginConnects(s.tm, a.accepted.value, a.hdl, a.now);
    }
  }

  /** The login takes the last handle of another user. */
  predicate TakesLastHandle(tm: TM, h: Handle, accepted: Option<Id>) {
    accepted.Some? && LastHandle(tm, h) && tm.userOf[h] != accepted.value
  }

  /** A login keeps the presence records in agreement exactly when it does not take the last handle of another user,
      who would stay online for ever, and its id holds no NUL character: what of it reaches the database would be online
      under an id that nobody is bound to. */
  lemma LoginKeepsPresenceIff(s: Server, a: Action, s': Server)
    requires Core(s) && a.Login? && LoginStep(s, a, s') && PresenceAgrees(s) && RoutingOk(s.tm)
    ensures PresenceAgrees(s')
       <==> !TakesLastHandle(s.tm, a.hdl, a.accepted) && (a.accepted.Some? ==> NoNul(a.accepted.value))
  {
    hide Core, OpenOf, OnlineOf, Run, Recorded, LoginOps, AfterLogin, Connected, RoutingOk, IsTrackedDevice,
        IsWebClient, LastHandle, NoNul, Stored;
    LoginKeepsCore(s, a, s');
    LoginConnected(s, a, s');
    LoginBinds(s, a, s');
    CoreIsSorted(s);
    CoreIsSorted(s');
    TablesHoldStoredIds(s);
    TablesHoldStoredIds(s');
    var id := UserOf(s'.tm, a.hdl);
    if NoNul(id) {
      PresenceGrows(s.online, s.web, OnlineOf(Db(s)), Connected(s.tm), id);
    }
  }

  /** The user of the socket after a login is connected, and was before if the login was refused. */
  lemma LoginBinds(s: Server, a: Action, s': Server)
    requires a.Login? && LoginStep(s, a, s')
    ensures var id := UserOf(s'.tm, a.hdl);
            && (id != "" ==> id in Connected(s'.tm)) && (a.accepted.None? && id != "" ==> id in Connected(s.tm))
            && (a.accepted.Some? ==> id == a.accepted.value) && NoNul("")
  {
    hide Recorded, LoginOps, IsTrackedDevice, IsWebClient;
    if a.hdl in s'.tm.userOf {
      HandleConnects(s'.tm, a.hdl);
    }
  }

  /** The second half of the presence step, when other steps came before it: the records agree afterwards exactly when
      somebody is connected under what of the id reaches the database. */
  lemma LateFlagIff(s: Server, id: Id, s': Server)
    requires Core(s) && PresenceAgrees(s) && FlagStep(s, id, s')
    ensures PresenceAgrees(s') <==> Stored(id) in Connected(s.tm)
  {
    hide OpenOf, OnlineOf, Run, RunOpen, RunOnline, Recorded, Connected, Core, NoNul, Stored, Sorted, IsTrackedDevice,
        IsWebClient;
    OneRuns(OpenOf(Db(s)), OnlineOf(Db(s)), SetOnline(id));
    CoreIsSorted(s);
    DbFollows(s, [SetOnline(id)], s');
    if Stored(id) in Connected(s.tm) {
      assert Connected(s.tm) + {Stored(id)} == Connected(s.tm);
    }
  }

  /** The presence step of a login reads the user of the socket and puts it online in two critical sections. When other
      steps come between them, the records agree afterwards exactly when the user is still connected: a sweep that logs
      the user out in between leaves it online for ever. (A controller's id is in no set in memory, so it is enough that
      somebody is connected under what of it reaches the database.) */
  lemma LatePresenceStepIff(s: Server, id: Id, s': Server)
    requires Core(s) && PresenceAgrees(s) && PresenceStep(s, id, s')
    ensures PresenceAgrees(s')
       <==> id in Connected(s.tm) || (IsCloneClient(id) && Stored(id) in Connected(s.tm))
  {
    hide OpenOf, OnlineOf, Run, RunOpen, RunOnline, Recorded, Connected, Core, NoNul, Stored, Sorted;
    OneRuns(OpenOf(Db(s)), OnlineOf(Db(s)), SetOnline(id));
    CoreIsSorted(s);
    TablesHoldStoredIds(s);
    DbFollows(s, [SetOnline(id)], s');
    EveryoneIsOneKind(id);
    hide IsTrackedDevice, IsWebClient, IsCloneClient;
    if id in Connected(s.tm) {
      PresenceGrows(s.online, s.web, OnlineOf(Db(s)), Connected(s.tm), id);
      assert Connected(s.tm) + {id} == Connected(s.tm);
    }
  }

  lemma EveryoneIsOneKind(d: Id)
    ensures IsTrackedDevice(d) || IsWebClient(d) <==> !IsCloneClient(d)
  {
    if IsWebClient(d) {
      assert d[0] == "web-"[0] != "C-"[0];
    }
  }

  lemma PresenceGrows(online: set<Id>, web: set<Id>, rows: set<Id>, connected: set<Id>, u: Id)
    requires PresentAs(online, web, rows, connected)
    ensures PresentAs(online + (if IsTrackedDevice(u) then {u} else {}), web + (if IsWebClient(u) then {u} else {}),
                      rows + {u}, connected + {u})
  {
    hide IsTrackedDevice, IsWebClient;
  }

  lemma HandleConnects(tm: TM, h: Handle)
    requires h in tm.userOf
    ensures tm.userOf[h] in Connected(tm)
  {
  }

  lemma LoginKeepsRouting(s: Server, a: Action, s': Server)
    requires a.Login? && LoginStep(s, a, s') && RoutingOk(s.tm) && Polite(s, a)
    ensures RoutingOk(s'.tm)
  {
    if a.accepted.Some? {
      BindKeepsRoutingIff(s.tm, a.accepted.value, a.hdl, a.now);
    }
  }

  // ---- join -------------------------------------------------------------------------------

  lemma JoinRuns(open: OpenSessions, on: set<Id>, t: Id, h: Id, g: Id)
    ensures RunOpen(open, OpsOf([Started(t, h, g)])) == StepOpen(open, StartSession(t, h, g))
    ensures RunOnline(on, OpsOf([Started(t, h, g)])) == on
    ensures LoggedOutBy([Started(t, h, g)]) == {}
  {
    OpsOfOne([], Started(t, h, g));
    assert [] + [Started(t, h, g)] == [Started(t, h, g)];
    OneRuns(open, on, StartSession(t, h, g));
  }

  lemma JoinKeepsCore(s: Server, a: Action, s': Server)
    requires Core(s) && a.Join? && JoinStep(s, a, s')
    ensures Core(s')
    ensures var t, g := a.transmission, a.user;
            if JoinCalls(s.tm, a) == [] then
              s'.tm == s.tm && OpenOf(Db(s')) == OpenOf(Db(s))
            else
              && t != "" && g != t && (t, g) !in Pairs(s.tm.guests)
              && Pairs(s'.tm.guests) == Pairs(s.tm.guests) + {(t, g)}
              && OpenOf(Db(s')) == StepOpen(OpenOf(Db(s)), StartSession(t, t, g))
    ensures OnlineOf(Db(s')) == OnlineOf(Db(s)) && s'.online == s.online && s'.web == s.web
    ensures s'.tm.userOf == s.tm.userOf && s'.tm.handleOf == s.tm.handleOf && s'.tm.lastActive == s.tm.lastActive
  {
    hide OpenOf, OnlineOf, Run, RunOpen, RunOnline, Recorded, Alternates, OpenPairs, OpsOf, LoggedOutBy, Pairs,
        SessionMapOk;
    var t, g := a.transmission, a.user;
    var calls := JoinCalls(s.tm, a);
    CallsNeverRecover(calls);
    DbFollows(s, OpsOf(calls), s');
    BindGuestKeepsSessionMap(s.tm, g, t);
    if calls == [] {
      NothingRuns(OpenOf(Db(s)), OnlineOf(Db(s)));
      assert s.log + [] == s.log;
    } else {
      JoinRuns(OpenOf(Db(s)), OnlineOf(Db(s)), t, t, g);
      AlternatesOne(s.log, calls[0]);
      assert calls == [Started(t, t, g)];
    }
    assert LoggedOutBy(calls) == {} ==> s'.online == s.online && s'.web == s.web by {
      NobodyOut(s);
    }
  }

  lemma NobodyOut(s: Server)
    ensures s.online - (set u | u in {} && IsTrackedDevice(u)) == s.online
    ensures s.web - (set u | u in {} && IsWebClient(u)) == s.web
  {
  }

  lemma NothingRuns(open: OpenSessions, on: set<Id>)
    ensures RunOpen(open, OpsOf([])) == open && RunOnline(on, OpsOf([])) == on && LoggedOutBy([]) == {}
  {
  }

  /** The session that a join adds to memory gets its row if its guest is named and no id holds a NUL character. */
  predicate IsRecorded(t: Id, g: Id) {
    g != "" && NoNul(g) && NoNul(t)
  }

  lemma JoinRows(open: OpenSessions, t: Id, g: Id)
    requires t != "" && g != t && Registered(t, t) && (t, g) !in open
    requires forall k :: k in open ==> NoNul(k.0) && NoNul(k.1)
    ensures var after := StepOpen(open, StartSession(t, t, g));
            && ((t, g) in after <==> IsRecorded(t, g))
            && ((t, g) in after ==> after.Keys == open.Keys + {(t, g)})
  {
    hide NoNul, Stored;
  }

  /** A join keeps memory and rows in agreement exactly when it adds no session whose guest is not named or whose ids
      hold a NUL character. */
  lemma JoinKeepsMirrorIff(s: Server, a: Action, s': Server)
    requires Core(s) && a.Join? && JoinStep(s, a, s') && Mirror(s)
    ensures Mirror(s')
       <==> (JoinAllowed(s.tm, a) && Joins(s.tm, a.user, a.transmission) ==> IsRecorded(a.transmission, a.user))
  {
    hide Core, Mirror, Pairs, OpenOf, OnlineOf, Run, JoinStep, IsRecorded, JoinAllowed, Joins, StepOpen, NoNul,
        Registered;
    JoinKeepsCore(s, a, s');
    MirrorMeans(s);
    MirrorMeans(s');
    if JoinCalls(s.tm, a) != [] {
      JoinRegisters(s, a, s');
      CoreIsSorted(s);
      TablesHoldStoredIds(s);
      JoinRows(OpenOf(Db(s)), a.transmission, a.user);
    }
  }

  lemma JoinRegisters(s: Server, a: Action, s': Server)
    requires a.Join? && JoinStep(s, a, s') && JoinCalls(s.tm, a) != []
    ensures Registered(a.transmission, a.transmission)
  {
  }

  lemma CoreIsSorted(s: Server)
    requires Core(s)
    ensures Sorted(1, s.history)
  {
  }
}
