/** What every step does to sockets, transmissions, sessions and client columns, said of the maps themselves and without
    the functions that compute the steps; and who is on which socket, read off the actions of a run alone. */
module ServerEffects {
  import opened Identity
  import opened Options
  import opened Ledger
  import opened Accounting
  import opened Transmission
  import opened TransmissionFacts
  import opened Delivery
  import opened Restore
  import opened ServerModel
  import RowEffects
  import ServerSteps
  import ServerSafety
  import opened ServerRuns

  // ---- sockets, read off the actions ------------------------------------------------------

  /** Who is logged in on a socket, and when it was last heard of, in milliseconds. */
  datatype Socket = Socket(user: Id, heard: int)

  function StepSockets(before: map<Handle, Socket>, a: Action): map<Handle, Socket> {
    match a
    case Login(h, accepted, _, now) => if accepted.Some? then before[h := Socket(accepted.value, now)] else before
    case Ping(h, now) => if h in before then before[h := Socket(before[h].user, now)] else before
    case Close(d) => before - {d.hdl}
    case Timeouts(expired, now, _) =>
      map h | h in before && h !in expired && now - before[h].heard <= 10000 :: before[h]
    case Restart(_, _) => map[]
    case _ => before
  }

  function Sockets(actions: seq<Action>): map<Handle, Socket> {
    if actions == [] then map[] else StepSockets(Sockets(actions[..|actions| - 1]), actions[|actions| - 1])
  }

  /** The bindings and the times of last activity are those. */
  predicate Watched(tm: TM, sockets: map<Handle, Socket>) {
    && tm.userOf.Keys == sockets.Keys && tm.lastActive.Keys == sockets.Keys
    && forall h :: h in sockets ==> tm.userOf[h] == sockets[h].user && tm.lastActive[h] == sockets[h].heard
  }

  lemma SweepIsWatched(tm: TM, sockets: map<Handle, Socket>, a: Action)
    requires Watched(tm, sockets) && a.Timeouts? && Sweep(tm, a.trace)
    requires Handles(a.trace) == Inactive(tm, a.expired, a.now)
    ensures Watched(AfterAll(tm, a.trace), StepSockets(sockets, a))
  {
    hide Sweep, AfterAll, Handles;
    SweepUnbinds(tm, a.trace);
  }

  lemma SocketsStay(s: Server, a: Action, s': Server)
    requires Next(s, a, s') && (a.Join? || a.Leave? || a.PruneRecovered? || a.AdminDisconnect? || a.Beat?
        || a.ReportVersion?)
    ensures s'.tm.userOf == s.tm.userOf && s'.tm.lastActive == s.tm.lastActive && s'.tm.handleOf == s.tm.handleOf
  {
    hide TakesIn, Recorded, EndsExactly, EndsSessions, VersionOps, JoinAllowed, Joins, FilterGuests, EndsLeftovers;
  }

  lemma LoginIsWatched(s: Server, a: Action, s': Server, sockets: map<Handle, Socket>)
    requires a.Login? && LoginStep(s, a, s') && Watched(s.tm, sockets)
    ensures Watched(s'.tm, StepSockets(sockets, a))
  {
    hide Recorded, LoginOps, IsTrackedDevice, IsWebClient;
  }

  lemma PingIsWatched(tm: TM, h: Handle, now: int, sockets: map<Handle, Socket>)
    requires Watched(tm, sockets)
    ensures Watched(Touch(tm, h, now), StepSockets(sockets, Ping(h, now)))
  {
  }

  lemma StepIsWatched(s: Server, a: Action, s': Server, sockets: map<Handle, Socket>)
    requires Core(s) && Next(s, a, s') && Watched(s.tm, sockets)
    ensures Watched(s'.tm, StepSockets(sockets, a))
  {
    hide Core, TakesIn, Recorded, EndsExactly, EndsSessions, Departs, Lists, Sweep, OncePerHandle, SweepCalls, Inactive,
        AfterAll, LoginStep, JoinStep, VersionStep, AdminStep, RestartStep, AfterLeave, Prune, Touch, Handles;
    match a
    case Close(d) => DepartureUnbinds(s.tm, d);
    case Timeouts(_, _, _) => SweepIsWatched(s.tm, sockets, a);
    case Restart(_, _) => RestartIsUnwatched(s, a, s');
    case Login(_, _, _, _) => LoginIsWatched(s, a, s', sockets);
    case Ping(h, now) => PingIsWatched(s.tm, h, now, sockets);
    case _ => SocketsStay(s, a, s');
  }

  lemma RestartIsUnwatched(s: Server, a: Action, s': Server)
    requires Core(s) && a.Restart? && RestartStep(s, a, s')
    ensures s'.tm.userOf == map[] && s'.tm.lastActive == map[]
  {
    hide Core, RestartStep, RowsRebuilt, SessionMapOk, Run, OpenOf, OnlineOf, ListedPairs, ServerRows;
    RestartRebuilds(s, a, s');
  }

  /** In every run, whatever clients send, the bindings and the times of last activity are those that the actions alone
      say: a socket is logged in as the user of the latest accepted login on it, since when it was neither closed nor
      given up nor the server restarted, and was last heard of at that login or a later ping on it. */
  lemma {:induction false} RunsWatch(states: seq<Server>, actions: seq<Action>, n: nat)
    requires IsRun(states, actions) && n < |states|
    ensures Watched(states[n].tm, Sockets(actions[..n]))
    decreases n
  {
    if n > 0 {
      hide Core, Next, Watched, StepSockets;
      RunsWatch(states, actions, n - 1);
      RunsKeepCore(states, actions, n - 1);
      assert Next(states[n - 1], actions[n - 1], states[n - 1 + 1]);
      assert actions[..n][..n - 1] == actions[..n - 1];
      StepIsWatched(states[n - 1], actions[n - 1], states[n], Sockets(actions[..n - 1]));
    }
  }

  /** So a sweep gives up a socket if and only if its connection is gone or it was last heard of, by login or ping, more
      than ten seconds ago. */
  lemma RunsSweepIff(states: seq<Server>, actions: seq<Action>, n: nat, h: Handle)
    requires IsRun(states, actions) && n < |actions| && actions[n].Timeouts? && h in Sockets(actions[..n])
    ensures h in states[n].tm.userOf
    ensures h !in states[n + 1].tm.userOf
       <==> h in actions[n].expired || actions[n].now - Sockets(actions[..n])[h].heard > 10000
  {
    assert |states| == |actions| + 1 && Next(states[n], actions[n], states[n + 1]);
    hide IsRun, Next;
    RunsWatch(states, actions, n);
    RunsWatch(states, actions, n + 1);
    assert actions[..n + 1][..n] == actions[..n];
  }

  // ---- presence ---------------------------------------------------------------------------

  predicate HasSocket(tm: TM, u: Id) {
    exists h :: h in tm.userOf && tm.userOf[h] == u
  }

  /** The user is online in the database, among the devices in memory, and among the browsers in memory. */
  predicate Shown(s: Server, presence: map<Id, PresenceRow>, u: Id, online: bool) {
    && (u in presence && presence[u].online <==> online)
    && (u in s.online <==> online && !("web-" <= u) && !("C-" <= u))
    && (u in s.web <==> online && "web-" <= u)
  }

  lemma PresenceMeans(s: Server, u: Id)
    requires PresenceAgrees(s)
    ensures Shown(s, Db(s).presence, u, HasSocket(s.tm, u))
  {
    hide Run;
    SocketIsConnection(s.tm, u);
    assert u in OnlineOf(Db(s)) <==> u in Db(s).presence && Db(s).presence[u].online;
  }

  /** As long as clients are polite, a user is online in memory and in the database, in every state of every run, if and
      only if one of the sockets that the actions alone leave is the user's. */
  lemma RunsPresence(states: seq<Server>, actions: seq<Action>, n: nat, u: Id)
    requires IsRun(states, actions) && n < |states|
    requires forall i :: 0 <= i < n ==> Polite(states[i], actions[i])
    ensures var sockets := Sockets(actions[..n]);
            Shown(states[n], Db(states[n]).presence, u, exists h :: h in sockets && sockets[h].user == u)
  {
    hide IsRun, Core, Mirror, PresenceAgrees, RoutingOk, CleanGuests, Polite, Run, Shown, Sockets;
    RunsAreSafe(states, actions, n);
    RunsWatch(states, actions, n);
    PresenceMeans(states[n], u);
  }

  lemma SocketIsConnection(tm: TM, u: Id)
    ensures HasSocket(tm, u) <==> u in Connected(tm)
  {
  }

  // ---- sessions ---------------------------------------------------------------------------

  predicate InSession(tm: TM, t: Id, g: Id) {
    t in tm.guests && g in tm.guests[t]
  }

  predicate IsHostOf(tm: TM, u: Id, t: Id) {
    t in tm.hostOf && tm.hostOf[t] == u
  }

  /** The user had a socket before the step and has none any more. */
  predicate Leaves(before: TM, after: TM, u: Id) {
    u != "" && HasSocket(before, u) && !HasSocket(after, u)
  }

  /** A session of this host and this guest outlives the step. */
  predicate Outlives(before: TM, a: Action, after: TM, t: Id, g: Id) {
    match a
    case Leave(user, left, _) => if IsHostOf(before, user, left) then t != left else g != user
    case Close(_) => !Leaves(before, after, t) && !Leaves(before, after, g)
    case Timeouts(_, _, _) => !Leaves(before, after, t) && !Leaves(before, after, g)
    case PruneRecovered(_) => HasSocket(before, t) && HasSocket(before, g)
    case AdminDisconnect(ended, _, _) => t != ended
    case _ => true
  }

  /** The step is a join of this guest to this host: the password was right, there is such a transmission, the guest is
      not its host, messages to the host go to a live socket, and the sender's socket is logged in as the guest. */
  predicate Enters(before: TM, a: Action, t: Id, g: Id) {
    && a.Join? && a.transmission == t && a.user == g && a.verified && t in before.hostOf && g != t
    && t in before.handleOf && before.handleOf[t].Conn? && before.handleOf[t] !in a.expired
    && g == if a.hdl in before.userOf then before.userOf[a.hdl] else ""
  }

  /** The transmission outlives the step. */
  predicate Remains(before: TM, a: Action, after: TM, t: Id) {
    match a
    case Leave(user, left, _) => !(t == left && IsHostOf(before, user, left))
    case Close(_) => !Leaves(before, after, t)
    case Timeouts(_, _, _) => !Leaves(before, after, t)
    case PruneRecovered(_) => HasSocket(before, t)
    case AdminDisconnect(ended, _, _) => t != ended
    case _ => true
  }

  lemma PairIsSession(tm: TM, t: Id, g: Id)
    ensures (t, g) in Pairs(tm.guests) <==> InSession(tm, t, g)
  {
  }

  lemma LeavesMeans(before: TM, after: TM, u: Id)
    ensures Leaves(before, after, u) <==> Departed(before, after, u)
  {
    hide HasSocket, Connected;
    SocketIsConnection(before, u);
    SocketIsConnection(after, u);
  }

  /** What one departure takes with it. */
  lemma DepartureTakes(tm: TM, d: Departure, t: Id, g: Id)
    requires SessionMapOk(tm) && SelfHosting(tm) && Departs(tm, d)
    ensures (t, g) in Pairs(d.after.guests)
       <==> (t, g) in Pairs(tm.guests) && !Departed(tm, d.after, t) && !Departed(tm, d.after, g)
    ensures t in d.after.hostOf <==> t in tm.hostOf && !Departed(tm, d.after, t)
    ensures SelfHosting(d.after) && SessionMapOk(d.after)
  {
    var u := d.LoggedOut();
    DepartureHosts(tm, d);
    DepartureKeepsSessionMap(tm, d);
    if u == "" {
      NobodyDeparts(tm, d, t);
      NobodyDeparts(tm, d, g);
    } else {
      OneDeparts(tm, d, t);
      OneDeparts(tm, d, g);
      DepartureLeavesHosts(tm, d);
      DeparturePairs(tm, d);
      HostedIsSelf(tm, u, d.hosted);
      PairHasHost(tm, t, g);
    }
  }

  lemma DepartureHosts(tm: TM, d: Departure)
    requires Departs(tm, d)
    ensures forall t :: t in d.after.hostOf ==> t in tm.hostOf && d.after.hostOf[t] == tm.hostOf[t]
  {
    ServerSteps.DepartureHosts(tm, d);
  }

  lemma NobodyDeparts(tm: TM, d: Departure, u: Id)
    requires Departs(tm, d) && d.LoggedOut() == ""
    ensures !Departed(tm, d.after, u) && d.after.guests == tm.guests && d.after.hostOf == tm.hostOf
  {
    if u != "" {
      DepartureLogsOut(tm, d, u);
    }
  }

  lemma OneDeparts(tm: TM, d: Departure, u: Id)
    requires Departs(tm, d) && d.LoggedOut() != ""
    ensures Departed(tm, d.after, u) <==> u == d.LoggedOut()
  {
    hide Departs, Connected;
    if u != "" {
      DepartureLogsOut(tm, d, u);
    }
  }

  lemma HostedIsSelf(tm: TM, u: Id, hosted: Id)
    requires SelfHosting(tm) && Hosted(tm, u, hosted) && u != ""
    ensures if u in tm.hostOf then hosted == u else hosted == ""
  {
    if u in tm.hostOf {
      assert tm.hostOf[u] == u;
    }
  }

  lemma PairHasHost(tm: TM, t: Id, g: Id)
    requires SessionMapOk(tm) && SelfHosting(tm)
    ensures (t, g) in Pairs(tm.guests) ==> t in tm.hostOf && t != "" && g != t
  {
  }

  lemma {:induction false} SweepTakes(tm: TM, tr: Trace, t: Id, g: Id)
    requires SessionMapOk(tm) && SelfHosting(tm) && Sweep(tm, tr)
    ensures var after := AfterAll(tm, tr);
            && ((t, g) in Pairs(after.guests)
                <==> (t, g) in Pairs(tm.guests) && !Departed(tm, after, t) && !Departed(tm, after, g))
            && (t in after.hostOf <==> t in tm.hostOf && !Departed(tm, after, t))
            && SelfHosting(after) && SessionMapOk(after) && Connected(after) <= Connected(tm)
  {
    hide Departs, SessionMapOk, SelfHosting, Pairs, Connected;
    if tr.Then? {
      var mid, d := AfterAll(tm, tr.before), tr.last;
      SweepTakes(tm, tr.before, t, g);
      DepartureTakes(mid, d, t, g);
      ServerSteps.DepartedWasConnected(mid, d);
    }
  }

  lemma LeaveTakes(tm: TM, user: Id, left: Id, t: Id, g: Id)
    requires SessionMapOk(tm)
    ensures var after := AfterLeave(tm, user, left);
            && ((t, g) in Pairs(after.guests)
                <==> (t, g) in Pairs(tm.guests) && if IsHostOf(tm, user, left) then t != left else g != user)
            && (t in after.hostOf <==> t in tm.hostOf && !(t == left && IsHostOf(tm, user, left)))
  {
    hide FilterGuests, SessionMapOk, Pairs;
    ReleaseKeepsSessionMap(tm, left);
    FilterKeepsSessionMap(tm, Except(user));
  }

  lemma PruneTakes(tm: TM, t: Id, g: Id)
    requires SessionMapOk(tm) && SelfHosting(tm)
    ensures (t, g) in Pairs(Prune(tm).guests)
       <==> (t, g) in Pairs(tm.guests) && t in Connected(tm) && g in Connected(tm)
    ensures t in Prune(tm).hostOf <==> t in tm.hostOf && t in Connected(tm)
  {
    PruneLeavesConnected(tm);
    PairHasHost(tm, t, g);
    hide Prune, Pairs, Connected;
  }

  lemma JoinAdds(s: Server, a: Action, s': Server, t: Id, g: Id)
    requires Core(s) && a.Join? && JoinStep(s, a, s')
    ensures (t, g) in Pairs(s'.tm.guests) <==> (t, g) in Pairs(s.tm.guests) || Enters(s.tm, a, t, g)
    ensures s'.tm.hostOf == s.tm.hostOf
  {
    hide Pairs, TakesIn, Recorded, CallsInTurn, Sorted, SelfHostedRows, SessionMapOk;
    BindGuestKeepsSessionMap(s.tm, a.user, a.transmission);
    JoinGuards(s.tm, a);
  }

  lemma JoinGuards(tm: TM, a: Action)
    requires SelfHosting(tm) && a.Join?
    ensures JoinAllowed(tm, a) && Joins(tm, a.user, a.transmission)
       <==> Enters(tm, a, a.transmission, a.user) && (a.transmission, a.user) !in Pairs(tm.guests)
  {
    hide Pairs;
  }

  /** What every step but a restart does to the sessions and transmissions in memory. */
  lemma StepSessions(s: Server, a: Action, s': Server, t: Id, g: Id)
    requires Core(s) && Next(s, a, s') && !a.Restart?
    ensures InSession(s'.tm, t, g)
       <==> (InSession(s.tm, t, g) && Outlives(s.tm, a, s'.tm, t, g)) || Enters(s.tm, a, t, g)
    ensures t in s'.tm.hostOf
       <==> (t in s.tm.hostOf && Remains(s.tm, a, s'.tm, t)) || (a.Login? && a.accepted == Some(t))
    ensures t in s'.tm.hostOf ==> s'.tm.hostOf[t] == t
  {
    StepKeepsCore(s, a, s');
    PairIsSession(s.tm, t, g);
    PairIsSession(s'.tm, t, g);
    LeavesMeans(s.tm, s'.tm, t);
    LeavesMeans(s.tm, s'.tm, g);
    SocketIsConnection(s.tm, t);
    SocketIsConnection(s.tm, g);
    hide InSession, Leaves, HasSocket, Departed, Connected, Pairs, SessionMapOk, TakesIn, Recorded, EndsExactly,
        EndsSessions, Departs, Sweep, OncePerHandle, SweepCalls, LoginOps, VersionOps, EndsLeftovers, AfterLeave, Prune,
        CallsInTurn, Sorted, SelfHostedRows, AfterAll, JoinStep, IsHostOf, Inactive, Handles;
    match a
    case Join(_, _, _, _, _) => JoinAdds(s, a, s', t, g);
    case Leave(user, left, _) => LeaveTakes(s.tm, user, left, t, g);
    case Close(d) => DepartureTakes(s.tm, d, t, g);
    case Timeouts(_, _, tr) => SweepTakes(s.tm, tr, t, g);
    case PruneRecovered(_) => PruneTakes(s.tm, t, g);
    case AdminDisconnect(x, _, _) => ReleaseKeepsSessionMap(s.tm, x);
    case _ => Untouched(s, a, s');
  }

  lemma Untouched(s: Server, a: Action, s': Server)
    requires Next(s, a, s') && (a.Login? || a.Ping? || a.ReportVersion? || a.Beat?)
    ensures s'.tm.guests == s.tm.guests
    ensures s'.tm.hostOf == if a.Login? && a.accepted.Some? && a.accepted.value !in s.tm.hostOf
                            then s.tm.hostOf[a.accepted.value := a.accepted.value] else s.tm.hostOf
  {
    hide Recorded, LoginOps, VersionOps;
  }

  // ---- routes -----------------------------------------------------------------------------

  /** The user's messages go where they went as long as that socket is logged in, and nowhere if they went nowhere. */
  predicate RouteStays(before: TM, after: TM, u: Id) {
    if u in before.handleOf then
      before.handleOf[u] in after.userOf ==> u in after.handleOf && after.handleOf[u] == before.handleOf[u]
    else u !in after.handleOf
  }

  lemma DepartureRoutes(tm: TM, d: Departure, u: Id)
    requires Departs(tm, d)
    ensures RouteStays(tm, d.after, u)
  {
    DepartureUnbinds(tm, d);
    hide EndsExactly, Connected;
  }

  lemma {:induction false} SweepRoutes(tm: TM, tr: Trace, u: Id)
    requires Sweep(tm, tr)
    ensures RouteStays(tm, AfterAll(tm, tr), u) && AfterAll(tm, tr).userOf.Keys <= tm.userOf.Keys
  {
    hide Departs;
    if tr.Then? {
      SweepRoutes(tm, tr.before, u);
      DepartureRoutes(AfterAll(tm, tr.before), tr.last, u);
      DepartureUnbinds(AfterAll(tm, tr.before), tr.last);
    }
  }

  /** A login takes the user's messages to its socket, whatever other sockets the user has; nothing else moves them
      while that socket is logged in. */
  lemma StepRoutes(s: Server, a: Action, s': Server, u: Id)
    requires Next(s, a, s') && !a.Restart?
    ensures if a.Login? && a.accepted == Some(u) then u in s'.tm.handleOf && s'.tm.handleOf[u] == a.hdl
            else RouteStays(s.tm, s'.tm, u)
  {
    hide TakesIn, Recorded, EndsExactly, EndsSessions, Departs, Sweep, OncePerHandle, SweepCalls, Inactive, AfterAll,
         JoinStep, VersionStep, AdminStep, AfterLeave, Prune, Handles, LoginOps, IsTrackedDevice, IsWebClient;
    match a
    case Close(d) => DepartureRoutes(s.tm, d, u);
    case Timeouts(_, _, tr) => SweepRoutes(s.tm, tr, u);
    case Login(_, _, _, _) =>
    case Ping(_, _) =>
    case _ => SocketsStay(s, a, s');
  }

  // ---- rows -------------------------------------------------------------------------------

  lemma RowIsSession(s: Server, t: Id, g: Id)
    requires Invariant(s)
    ensures (t, g) in Db(s).sessions <==> InSession(s.tm, t, g)
    ensures (t, g) in Db(s).sessions ==> Db(s).sessions[(t, g)].host == t
  {
    hide Run, OnlineOf, PresenceAgrees, RoutingOk, CleanGuests, Pairs, Alternates, OpenPairs, SessionMapOk, Sorted,
        InSession, Mirror;
    ServerSafety.MirrorMeans(s);
    OpenKeys(Db(s));
    PairIsSession(s.tm, t, g);
    if (t, g) in Db(s).sessions {
      assert OpenOf(Db(s))[(t, g)] == t;
    }
  }

  /** In every run: sessions and transmissions come and go as StepSessions says; and as long as clients are polite the
      rows of the database do, under the same ids. */
  lemma RunsSessions(states: seq<Server>, actions: seq<Action>, n: nat, t: Id, g: Id)
    requires IsRun(states, actions) && n < |actions| && !actions[n].Restart?
    ensures var s, a, s' := states[n], actions[n], states[n + 1];
            && (InSession(s'.tm, t, g)
                <==> (InSession(s.tm, t, g) && Outlives(s.tm, a, s'.tm, t, g)) || Enters(s.tm, a, t, g))
            && ((forall i :: 0 <= i <= n ==> Polite(states[i], actions[i])) ==>
                  ((t, g) in Db(s').sessions
                   <==> ((t, g) in Db(s).sessions && Outlives(s.tm, a, s'.tm, t, g)) || Enters(s.tm, a, t, g)))
  {
    assert Next(states[n], actions[n], states[n + 1]);
    hide Core, Next, InSession, Outlives, Enters, Run, Polite, Invariant;
    RunsKeepCore(states, actions, n);
    StepSessions(states[n], actions[n], states[n + 1], t, g);
    if forall i :: 0 <= i <= n ==> Polite(states[i], actions[i]) {
      RunsAreSafe(states, actions, n);
      RunsAreSafe(states, actions, n + 1);
      RowIsSession(states[n], t, g);
      RowIsSession(states[n + 1], t, g);
    }
  }

  /** The time a restart reads from the clock. */
  function RestartedAt(s: Server, s': Server): int
    requires |s.history| < |s'.history|
  {
    s'.history[|s.history|].at
  }

  /** After a restart within 120 seconds of the last heartbeat, sessions whose guests' ids are non-empty, without a
      comma and not their hosts' are open in memory and in the database, with their rows unchanged; after a later
      restart no session is open. Nobody is on a socket. */
  lemma RestartSessions(s: Server, a: Action, s': Server)
    requires Core(s) && a.Restart? && Next(s, a, s')
    requires forall k :: k in Db(s).sessions ==> k.1 != "" && ',' !in k.1 && k.1 != k.0
    ensures |s.history| < |s'.history| && s'.tm.userOf == map[]
    ensures var at := RestartedAt(s, s');
            && Db(s').sessions
            == (if Db(s).lastSeen > 0 && at - Db(s).lastSeen <= 120 then Db(s).sessions else map[])
            && forall t, g :: InSession(s'.tm, t, g) <==> (t, g) in Db(s').sessions
  {
    RecoveredSessions(s, a, s');
    var rows := Run(EMPTY, Recovered(s, s')).sessions;
    hide Run, Core, RestartStep, InSession, Recovered, Mirror;
    assert AllRestorable(rows);
    RestartIsUnwatched(s, a, s');
    RestartAddsNoRows(s, a, s');
    RestartMirrorsIff(s, a, s');
    StepKeepsCore(s, a, s');
    ServerSafety.MirrorMeans(s');
    OpenKeys(Db(s'));
    hide AllRestorable, OpenOf, Pairs;
    forall t, g
      ensures InSession(s'.tm, t, g) <==> (t, g) in Db(s').sessions
    {
      PairIsSession(s'.tm, t, g);
    }
  }

  lemma RecoveredSessions(s: Server, a: Action, s': Server)
    requires Core(s) && a.Restart? && RestartStep(s, a, s')
    ensures |s.history| < |s'.history|
    ensures var at := RestartedAt(s, s');
            Run(EMPTY, Recovered(s, s')).sessions
            == if Db(s).lastSeen > 0 && at - Db(s).lastSeen <= 120 then Db(s).sessions else map[]
  {
    var recovered, e := Recovered(s, s'), s'.history[|s.history|];
    assert recovered == s.history + [e];
    assert recovered[|s.history| + 0].op == [Recover][0] && Sorted(1, recovered);
    RunOneMore(s.history, e);
    ServerSafety.EmptyIsWellFormed();
    hide Run, Lists, Recorded, Apply, OpenPairs, Alternates, SessionMapOk;
    WellFormedRun(EMPTY, 1, s.history);
    RowEffects.RecoverWrites(Db(s), LastTime(1, s.history), e.at);
  }

  // ---- client columns ---------------------------------------------------------------------

  /** The version and the platform that an action stores for a device, if it does. */
  function Said(tm: TM, a: Action, d: Id): Option<(string, string)> {
    match a
    case ReportVersion(h, Some(version), Some(platform)) =>
      if h in tm.userOf && tm.userOf[h] != "" && !("web-" <= tm.userOf[h]) && !("C-" <= tm.userOf[h])
         && d == Stored(tm.userOf[h]) && 0 < |version| <= 64 && 0 < |platform| <= 32
      then Some((Stored(version), Stored(platform))) else None
    case Login(_, Some(u), true, _) => if !("web-" <= u) && !("C-" <= u) && d == Stored(u) then Some(("", "")) else None
    case _ => None
  }

  /** The client columns of a device. */
  ghost function Columns(s: Server, d: Id): (string, string) {
    var c := StoredClient(Db(s), d);
    (c.version, c.platform)
  }

  function RunClient(first: Client, ops: seq<Op>, d: Id): Client {
    if ops == [] then first
    else
      var op := ops[|ops| - 1];
      if Says(op, d) then StoredInfo(op.client) else RunClient(first, ops[..|ops| - 1], d)
  }

  lemma {:induction false} ClientsFollow(before: seq<Entry>, ops: seq<Op>, after: seq<Entry>, d: Id)
    requires Recorded(before, ops, after)
    ensures StoredClient(Run(EMPTY, after), d) == RunClient(StoredClient(Run(EMPTY, before), d), ops, d)
    decreases |ops|
  {
    hide Apply, StoredClient, Stored;
    if ops == [] {
      assert after == before;
    } else {
      var n := |ops| - 1;
      var mid, e := after[..|after| - 1], after[|before| + n];
      assert e.op == ops[n];
      assert Recorded(before, ops[..n], mid);
      ClientsFollow(before, ops[..n], mid, d);
      assert after == mid + [e];
      RunOneMore(mid, e);
      ClientStep(Run(EMPTY, mid), e.op, e.at, d);
    }
  }

  predicate NoneSays(ops: seq<Op>) {
    forall i :: 0 <= i < |ops| ==> !ops[i].ClientInfo?
  }

  lemma {:induction false} SilentOps(first: Client, ops: seq<Op>, d: Id)
    requires NoneSays(ops)
    ensures RunClient(first, ops, d) == first
  {
    if ops != [] {
      SilentOps(first, ops[..|ops| - 1], d);
    }
  }

  lemma {:induction false} CallsAreSilent(calls: seq<Call>)
    ensures NoneSays(OpsOf(calls))
  {
    if calls != [] {
      CallsAreSilent(calls[..|calls| - 1]);
    }
  }

  lemma SilentStep(s: Server, ops: seq<Op>, s': Server, d: Id)
    requires Recorded(s.history, ops, s'.history) && NoneSays(ops)
    ensures Columns(s', d) == Columns(s, d)
  {
    hide Run, Recorded, NoneSays, StoredClient;
    ClientsFollow(s.history, ops, s'.history, d);
    SilentOps(StoredClient(Db(s), d), ops, d);
  }

  lemma RunClientMore(first: Client, ops: seq<Op>, op: Op, d: Id)
    ensures RunClient(first, ops + [op], d) == if Says(op, d) then StoredInfo(op.client) else RunClient(first, ops, d)
  {
    hide Says;
    assert (ops + [op])[..|ops|] == ops;
  }

  lemma ClearsClient(first: Client, u: Id, d: Id)
    requires u != ""
    ensures RunClient(first, [ClientInfo(u, NO_CLIENT)], d) == if d == Stored(u) then Client("", "") else first
  {
    hide Stored, RunClient;
    assert [] + [ClientInfo(u, NO_CLIENT)] == [ClientInfo(u, NO_CLIENT)];
    RunClientMore(first, [], ClientInfo(u, NO_CLIENT), d);
    NothingStored();
    NothingRun(first, d);
  }

  lemma NothingRun(first: Client, d: Id)
    ensures RunClient(first, [], d) == first
  {
  }

  lemma LoginSays(first: Client, a: Action, id: Id, tm: TM, d: Id)
    requires a.Login? && (a.accepted.Some? ==> a.accepted.value != "")
    ensures var c, said := RunClient(first, LoginOps(a.accepted, a.registered, id), d), Said(tm, a, d);
            (c.version, c.platform) == if said.Some? then said.value else (first.version, first.platform)
  {
    var stores := a.accepted.Some? && a.registered && IsTrackedDevice(a.accepted.value);
    var cleared: seq<Op> := if stores then [ClientInfo(a.accepted.value, NO_CLIENT)] else [];
    assert LoginOps(a.accepted, a.registered, id) == if id != "" then cleared + [SetOnline(id)] else cleared;
    assert Said(tm, a, d) == if stores && d == Stored(a.accepted.value) then Some(("", "")) else None;
    hide Stored, RunClient, LoginOps, IsTrackedDevice, Said;
    NothingRun(first, d);
    if stores {
      ClearsClient(first, a.accepted.value, d);
    }
    RunClientMore(first, cleared, SetOnline(id), d);
  }

  lemma NothingStored()
    ensures StoredInfo(NO_CLIENT) == Client("", "")
  {
  }

  lemma VersionSays(first: Client, tm: TM, a: Action, d: Id)
    requires a.ReportVersion?
    ensures var c, said := RunClient(first, VersionOps(tm, a), d), Said(tm, a, d);
            (c.version, c.platform) == if said.Some? then said.value else (first.version, first.platform)
  {
    hide Stored, NoNul;
    var ops := VersionOps(tm, a);
    if ops != [] {
      assert ops[..0] == [];
    }
  }

  /** The client columns of every device after any step: what its client says if it says something well-formed, nothing
      after a login of a registered device, and what they were otherwise, a restart included. */
  lemma StepClients(s: Server, a: Action, s': Server, d: Id)
    requires Next(s, a, s')
    ensures var said := Said(s.tm, a, d);
            Columns(s', d) == if said.Some? then said.value else Columns(s, d)
  {
    hide Run, Recorded, EndsExactly, Departs, Lists, Sweep, OncePerHandle, LoginOps, VersionOps, RunClient, OpsOf,
        NoneSays, Stored, StoredClient, EndsLeftovers, SweepCalls, RestoreCalls, RestoreAll, AfterLogin, Recovered;
    match a
    case Login(_, accepted, registered, _) =>
      var id := UserOf(s'.tm, a.hdl);
      ClientsFollow(s.history, LoginOps(accepted, registered, id), s'.history, d);
      LoginSays(StoredClient(Db(s), d), a, id, s.tm, d);
    case ReportVersion(_, _, _) =>
      ClientsFollow(s.history, VersionOps(s.tm, a), s'.history, d);
      VersionSays(StoredClient(Db(s), d), s.tm, a, d);
    case Restart(list, _) =>
      RestartIsSilent(s, a, s', d);
    case Ping(_, _) =>
    case _ =>
      OthersAreSilent(s, a, s');
      SilentStep(s, OpsBy(s.tm, a), s', d);
  }

  /** What the other actions write. */
  function OpsBy(tm: TM, a: Action): seq<Op> {
    match a
    case Join(_, _, _, _, _) => OpsOf(JoinCalls(tm, a))
    case Leave(_, _, ended) => OpsOf(ended)
    case Close(d) => OpsOf(d.calls + [TimedOut(d.hdl, d.LoggedOut())])
    case Timeouts(_, _, tr) => OpsOf(SweepCalls(tr))
    case PruneRecovered(ended) => OpsOf(ended)
    case AdminDisconnect(_, ended, leftovers) => OpsOf(ended) + leftovers
    case Beat => [Heartbeat]
    case _ => []
  }

  lemma OthersAreSilent(s: Server, a: Action, s': Server)
    requires Next(s, a, s') && !a.Login? && !a.ReportVersion? && !a.Restart? && !a.Ping?
    ensures Recorded(s.history, OpsBy(s.tm, a), s'.history) && NoneSays(OpsBy(s.tm, a))
  {
    hide Recorded, EndsExactly, Departs, Sweep, OncePerHandle, OpsOf, SweepCalls, JoinCalls, AfterLeave, Prune,
         Inactive;
    match a
    case Join(_, _, _, _, _) => CallsAreSilent(JoinCalls(s.tm, a));
    case Leave(_, _, ended) => CallsAreSilent(ended);
    case Close(d) => CallsAreSilent(d.calls + [TimedOut(d.hdl, d.LoggedOut())]);
    case Timeouts(_, _, tr) => CallsAreSilent(SweepCalls(tr));
    case PruneRecovered(ended) => CallsAreSilent(ended);
    case AdminDisconnect(_, ended, _) => CallsAreSilent(ended);
    case _ =>
  }

  lemma RestartIsSilent(s: Server, a: Action, s': Server, d: Id)
    requires a.Restart? && RestartStep(s, a, s')
    ensures Columns(s', d) == Columns(s, d)
  {
    hide Run, Recorded, Lists, RestoreCalls, RestoreAll, OpsOf, StoredClient;
    var mid := s.(history := Recovered(s, s'));
    CallsAreSilent(RestoreCalls(a.list));
    SilentStep(s, [Recover], mid, d);
    SilentStep(mid, OpsOf(RestoreCalls(a.list)), s', d);
  }
}
