/** Restart, and safety over whole runs. */
module ServerRuns {
  import opened Identity
  import opened Ledger
  import opened Accounting
  import opened Conservation
  import opened Transmission
  import opened TransmissionFacts
  import opened Delivery
  import opened Restore
  import opened ServerModel
  import ServerSteps
  import opened ServerSafety

  // ---- restart ----------------------------------------------------------------------------

  /** Recovery keeps all rows or none, and leaves nobody online. */
  lemma RecoveryRows(s: Server, s': Server)
    requires |s.history| < |s'.history| && Recorded(s.history, [Recover], Recovered(s, s')) && Sorted(1, s.history)
    ensures var after := Run(EMPTY, Recovered(s, s'));
            && (after.sessions == Db(s).sessions || after.sessions == map[])
            && OnlineOf(after) == {}
            && WellFormed(after, LastTime(1, Recovered(s, s')))
  {
    var recovered := Recovered(s, s');
    var e := recovered[|s.history|];
    assert [Recover][0] == Recover && recovered[|s.history| + 0].op == [Recover][0];
    assert recovered == s.history + [e];
    RunOneMore(s.history, e);
    hide Run, Recorded, WellFormed;
    WellFormedRun(EMPTY, 1, recovered) by {
      EmptyIsWellFormed();
    }
  }

  lemma RowsAreServerRows(tb: Tables, now: int)
    requires WellFormed(tb, now) && SelfHostedRows(OpenOf(tb))
    ensures ServerRows(tb.sessions)
  {
    hide NoNul;
    forall k | k in tb.sessions
      ensures tb.sessions[k].host == k.0 && Name(k.0) && NoNul(k.1)
    {
      assert OpenOf(tb)[k] == k.0;
      assert SessionOk(tb, k, now);
    }
  }

  /** What a restart leaves: memory holds the listed sessions, the rows are those recovered plus the listed ones. */
  lemma RestartRebuilds(s: Server, a: Action, s': Server)
    requires Core(s) && a.Restart? && RestartStep(s, a, s')
    ensures var recovered := Run(EMPTY, Recovered(s, s'));
            && ServerRows(recovered.sessions)
            && Rebuilt(s'.tm, s'.log, ListedPairs(a.list), OpenOf(recovered), {})
            && OpenOf(Db(s')) == OwnHosts(ListedPairs(a.list)) + OpenOf(recovered)
            && OnlineOf(Db(s')) == {}
            && SelfHostedRows(OpenOf(recovered))
  {
    RecoveryRows(s, s');
    var recovered := Run(EMPTY, Recovered(s, s'));
    assert SelfHostedRows(OpenOf(recovered)) by {
      hide Run;
    }
    RowsAreServerRows(recovered, LastTime(1, Recovered(s, s')));
    hide Run, Recorded, WellFormed, Lists, ServerRows, OpenOf, OnlineOf, SelfHostedRows, SelfHosted, Core;
    ListingIsSelfHosted(recovered.sessions, a.list, a.groups);
    AllRebuilt(a.list, OpenOf(recovered), {});
    CallsNeverRecover(RestoreCalls(a.list));
    RecordedFollows(Recovered(s, s'), OpsOf(RestoreCalls(a.list)), s'.history);
  }

  /** A freshly rebuilt process meets everything but, perhaps, the mirror. */
  lemma RebuiltIsCore(s: Server, pairs: set<Pair>, open: OpenSessions)
    requires Rebuilt(s.tm, s.log, pairs, open, {}) && s.online == {} && s.web == {} && Sorted(1, s.history)
    requires OpenOf(Db(s)) == OwnHosts(pairs) + open && SelfHostedRows(open) && OnlineOf(Db(s)) == {}
    requires forall p :: p in pairs ==> Restorable(p)
    ensures Core(s) && RoutingOk(s.tm) && PresenceAgrees(s) && CleanGuests(s.tm)
  {
    hide Run, OpenOf, OnlineOf, RunOpen, RunOnline, OpsOf, Alternates, OpenPairs, Pairs, SessionMapOk, Sorted,
         IsTrackedDevice, IsWebClient;
    assert Connected(s.tm) == {};
  }

  lemma RestartKeepsCore(s: Server, a: Action, s': Server)
    requires Core(s) && a.Restart? && RestartStep(s, a, s')
    ensures Core(s') && RoutingOk(s'.tm) && PresenceAgrees(s') && CleanGuests(s'.tm)
  {
    RestartRebuilds(s, a, s');
    var recovered := Run(EMPTY, Recovered(s, s'));
    ListingIsFaithfulIff(recovered.sessions, a.list, a.groups);
    assert Sorted(1, s'.history);
    hide Run, Lists, OpenOf, OnlineOf, ListedPairs, ServerRows, Core, Rebuilt, Recorded, RoutingOk, PresenceAgrees,
         CleanGuests, SelfHostedRows, Sorted, RestoreAll, RestoreCalls;
    RebuiltIsCore(s', ListedPairs(a.list), OpenOf(recovered));
  }

  /** After a restart memory mirrors the rows exactly when every surviving guest's id is non-empty, without a comma and
      not the host's. */
  lemma RestartMirrorsIff(s: Server, a: Action, s': Server)
    requires Core(s) && a.Restart? && RestartStep(s, a, s')
    ensures Mirror(s') <==> AllRestorable(Run(EMPTY, Recovered(s, s')).sessions)
  {
    RestartRebuilds(s, a, s');
    hide Lists, Core, Mirror, RestartStep, Run, OpenOf, OnlineOf, OwnHosts, ListedPairs, Rebuilt, ServerRows,
        SelfHostedRows, Pairs, Recovered, RoutingOk, PresenceAgrees, CleanGuests, AllRestorable;
    RestartKeepsCore(s, a, s');
    var recovered := Run(EMPTY, Recovered(s, s'));
    RestartListing(s, a, s');
    RebuiltPairs(s'.tm, s'.log, ListedPairs(a.list), OpenOf(recovered));
    RowKeys(ListedPairs(a.list), recovered);
    MirrorOfUnion(s', ListedPairs(a.list), recovered.sessions.Keys);
  }

  lemma RestartListing(s: Server, a: Action, s': Server)
    requires a.Restart? && RestartStep(s, a, s') && ServerRows(Run(EMPTY, Recovered(s, s')).sessions)
    ensures var rows := Run(EMPTY, Recovered(s, s')).sessions;
            && (rows.Keys <= ListedPairs(a.list) <==> AllRestorable(rows))
            && (ListedPairs(a.list) == rows.Keys <==> AllRestorable(rows))
  {
    hide Run, Lists, ListedPairs, ServerRows, Recorded, AllRestorable;
    ListingIsFaithfulIff(Run(EMPTY, Recovered(s, s')).sessions, a.list, a.groups);
  }

  lemma MirrorOfUnion(s: Server, listed: set<Pair>, rows: set<Pair>)
    requires Core(s) && Pairs(s.tm.guests) == listed && OpenOf(Db(s)).Keys == listed + rows
    ensures Mirror(s) <==> rows <= listed
  {
    MirrorMeans(s);
    hide *;
    assert listed + rows == listed <==> rows <= listed;
  }

  lemma RebuiltPairs(tm: TM, calls: seq<Call>, pairs: set<Pair>, open: OpenSessions)
    requires Rebuilt(tm, calls, pairs, open, {})
    ensures Pairs(tm.guests) == pairs
  {
  }

  lemma RowKeys(pairs: set<Pair>, tb: Tables)
    ensures (OwnHosts(pairs) + OpenOf(tb)).Keys == pairs + tb.sessions.Keys
  {
  }

  /** Rebuilding the sessions changes no recovered row, whatever the ids: every session keeps its start time. */
  lemma RestartKeepsRows(s: Server, a: Action, s': Server)
    requires Core(s) && a.Restart? && RestartStep(s, a, s')
    ensures var rows := Run(EMPTY, Recovered(s, s')).sessions;
            forall k :: k in rows ==> k in Db(s').sessions && Db(s').sessions[k] == rows[k]
  {
    RestartRebuilds(s, a, s');
    hide Run, Lists, OpenOf, OnlineOf, RunOpen, RunOnline, Alternates, OpenPairs, Pairs, SessionMapOk, ListedPairs,
        ServerRows, Core;
    StartsKeepRows(Recovered(s, s'), OpsOf(RestoreCalls(a.list)), s'.history, ListedPairs(a.list));
  }

  lemma RestartedKeys(s: Server, a: Action, s': Server)
    requires Core(s) && a.Restart? && RestartStep(s, a, s')
    ensures Db(s').sessions.Keys == ListedPairs(a.list) + Run(EMPTY, Recovered(s, s')).sessions.Keys
    ensures ServerRows(Run(EMPTY, Recovered(s, s')).sessions)
  {
    var recovered := Run(EMPTY, Recovered(s, s'));
    hide *;
    RestartRebuilds(s, a, s');
    RowKeys(ListedPairs(a.list), recovered);
    OpenKeys(Db(s'));
  }

  /** And it adds none when every surviving guest's id can be restored. */
  lemma RestartAddsNoRows(s: Server, a: Action, s': Server)
    requires Core(s) && a.Restart? && RestartStep(s, a, s')
    requires AllRestorable(Run(EMPTY, Recovered(s, s')).sessions)
    ensures Db(s').sessions == Run(EMPTY, Recovered(s, s')).sessions
  {
    var rows := Run(EMPTY, Recovered(s, s')).sessions;
    hide *;
    RestartKeepsRows(s, a, s');
    RestartedKeys(s, a, s');
    RestartListing(s, a, s');
    SameRows(Db(s').sessions, rows, ListedPairs(a.list));
  }

  lemma SameRows(m: map<SessionKey, SessionRow>, n: map<SessionKey, SessionRow>, more: set<SessionKey>)
    requires m.Keys == more + n.Keys && more == n.Keys && forall k :: k in n ==> k in m && m[k] == n[k]
    ensures m == n
  {
  }

  lemma {:induction false} StartsKeepRows(before: seq<Entry>, ops: seq<Op>, after: seq<Entry>, keys: set<Pair>)
    requires Recorded(before, ops, after) && OnlyStarts(ops, keys)
    ensures var rows := Run(EMPTY, before).sessions;
            forall k :: k in rows ==> k in Run(EMPTY, after).sessions && Run(EMPTY, after).sessions[k] == rows[k]
    decreases |ops|
  {
    if ops == [] {
      assert after == before;
    } else {
      var n := |ops| - 1;
      var mid, e := after[..|after| - 1], after[|before| + n];
      assert e.op == ops[n];
      assert Recorded(before, ops[..n], mid);
      assert OnlyStarts(ops[..n], keys);
      StartsKeepRows(before, ops[..n], mid, keys);
      assert after == mid + [e];
      RunOneMore(mid, e);
      hide Run;
    }
  }

  // ---- every step -------------------------------------------------------------------------

  lemma NothingLogsOut(s: Server)
    ensures Connected(s.tm) - {} == Connected(s.tm)
  {
  }

  lemma EndingKeepsInvariant(s: Server, ended: seq<Call>, s': Server)
    requires Invariant(s) && SettledStep(s, ended, s') && LoggedOutBy(ended) == {}
    requires s'.tm.userOf == s.tm.userOf && s'.tm.handleOf == s.tm.handleOf && s'.tm.lastActive == s.tm.lastActive
    ensures Invariant(s')
  {
    hide Core, Mirror, PresenceAgrees, SettledStep, LoggedOutBy, CleanGuests;
    SettledRows(s, ended, s');
    SettledKeepsMirror(s, ended, s');
    NothingLogsOut(s);
    assert {} <= Connected(s.tm);
    SettledKeepsPresence(s, ended, s');
  }

  lemma LeaveKeepsInvariant(s: Server, a: Action, s': Server)
    requires Invariant(s) && a.Leave? && Next(s, a, s')
    ensures Invariant(s')
  {
    hide Mirror, PresenceAgrees, RoutingOk, CleanGuests, EndsExactly, SessionMapOk, FilterGuests;
    LeaveKeepsSessionMap(s.tm, a.user, a.transmission);
    EndingIsSettled(s, a.ended, s');
    hide Invariant, SettledStep, Core, EndsSessions;
    EndingKeepsInvariant(s, a.ended, s');
  }

  lemma PruneKeepsInvariant(s: Server, a: Action, s': Server)
    requires Invariant(s) && a.PruneRecovered? && Next(s, a, s')
    ensures Invariant(s')
  {
    hide Mirror, PresenceAgrees, RoutingOk, CleanGuests, EndsExactly, SessionMapOk, FilterGuests;
    PruneLeavesConnected(s.tm);
    EndingIsSettled(s, a.ended, s');
    hide Invariant, SettledStep, Core, EndsSessions;
    EndingKeepsInvariant(s, a.ended, s');
  }

  lemma AdminKeepsInvariant(s: Server, a: Action, s': Server)
    requires Invariant(s) && a.AdminDisconnect? && Next(s, a, s')
    ensures Invariant(s')
  {
    hide Core, Mirror, PresenceAgrees, RoutingOk, CleanGuests, EndsExactly, EndsLeftovers, Recorded;
    AdminIsSettled(s, a, s');
    hide SettledStep;
    EndingKeepsInvariant(s, a.ended, s');
  }

  lemma DepartingKeepsInvariant(s: Server, calls: seq<Call>, s': Server)
    requires Invariant(s) && SettledStep(s, calls, s') && RoutingOk(s'.tm)
    requires LoggedOutBy(calls) <= Connected(s.tm) && Connected(s'.tm) == Connected(s.tm) - LoggedOutBy(calls)
    ensures Invariant(s')
  {
    hide Core, Mirror, PresenceAgrees, SettledStep, LoggedOutBy, CleanGuests, RoutingOk, Connected;
    SettledRows(s, calls, s');
    SettledKeepsMirror(s, calls, s');
    SettledKeepsPresence(s, calls, s');
  }

  lemma LoginKeepsInvariant(s: Server, a: Action, s': Server)
    requires Invariant(s) && a.Login? && Next(s, a, s') && Polite(s, a)
    ensures Invariant(s')
  {
    hide Core, Mirror, PresenceAgrees, RoutingOk, Recorded, LoginOps, LastHandle, NoNul;
    LoginKeepsCore(s, a, s');
    LoginKeepsMirror(s, a, s');
    LoginKeepsPresenceIff(s, a, s');
    LoginKeepsRouting(s, a, s');
    assert LastHandle(s.tm, a.hdl) ==> a.hdl in s.tm.userOf by {
      LastHandleIsBound(s.tm, a.hdl);
    }
    UsersHaveNames(s.tm, a.hdl);
  }

  lemma LastHandleIsBound(tm: TM, h: Handle)
    ensures LastHandle(tm, h) ==> h in tm.userOf
  {
  }

  lemma UsersHaveNames(tm: TM, h: Handle)
    requires RoutingOk(tm)
    ensures h in tm.userOf ==> tm.userOf[h] != ""
  {
  }

  /** A transmission that is joined belongs to a connected host, whose id reaches the database whole. */
  lemma JoinedIsWhole(s: Server, a: Action)
    requires Invariant(s) && a.Join? && JoinAllowed(s.tm, a)
    ensures NoNul(a.transmission)
  {
    hide OnlineOf, OpenOf, Run, Pairs, SessionMapOk, CallsInTurn, Mirror, NoNul;
    RoutingMeaning(s.tm, a.transmission);
    TablesHoldStoredIds(s);
    hide RoutingOk, Connected;
  }

  lemma JoinKeepsInvariant(s: Server, a: Action, s': Server)
    requires Invariant(s) && a.Join? && Next(s, a, s') && Polite(s, a)
    ensures Invariant(s')
  {
    hide Core, Mirror, Pairs, OnlineOf, OpenOf, Run, JoinStep, JoinAllowed, Joins, NoNul;
    JoinKeepsCore(s, a, s');
    JoinKeepsMirrorIff(s, a, s');
    if JoinAllowed(s.tm, a) {
      JoinedIsWhole(s, a);
    }
  }

  lemma PingKeepsInvariant(s: Server, a: Action, s': Server)
    requires Invariant(s) && a.Ping? && Next(s, a, s')
    ensures Invariant(s')
  {
    hide Pairs, OnlineOf, OpenOf, Run, Alternates, OpenPairs, Sorted;
    assert s'.tm.lastActive.Keys == s.tm.lastActive.Keys;
  }

  lemma VersionKeepsInvariant(s: Server, a: Action, s': Server)
    requires Invariant(s) && a.ReportVersion? && Next(s, a, s')
    ensures Invariant(s')
  {
    hide Pairs, OnlineOf, OpenOf, Run, Alternates, OpenPairs, RoutingOk, SessionMapOk, CleanGuests, Recorded;
    VersionRuns(s, a, s');
  }

  lemma BeatKeepsInvariant(s: Server, a: Action, s': Server)
    requires Invariant(s) && a.Beat? && Next(s, a, s')
    ensures Invariant(s')
  {
    hide Pairs, OnlineOf, OpenOf, Run, Alternates, OpenPairs, RoutingOk, SessionMapOk, CleanGuests;
    DbFollows(s, [Heartbeat], s');
    OneRuns(OpenOf(Db(s)), OnlineOf(Db(s)), Heartbeat);
  }

  /** The sessions of a mirrored memory can all be restored. */
  lemma MirroredAreRestorable(s: Server, rows: map<SessionKey, SessionRow>)
    requires Core(s) && CleanGuests(s.tm) && forall k :: k in rows ==> k in Pairs(s.tm.guests)
    ensures AllRestorable(rows)
  {
    hide Run, OpenOf, CallsInTurn, SelfHostedRows;
    forall k | k in rows
      ensures Restorable(k)
    {
      assert k in Pairs(s.tm.guests);
      assert k.0 in s.tm.hostOf && s.tm.hostOf[k.0] == k.0;
    }
  }

  lemma RestartKeepsInvariant(s: Server, a: Action, s': Server)
    requires Invariant(s) && a.Restart? && Next(s, a, s')
    ensures Invariant(s')
  {
    RecoveryRows(s, s');
    MirrorMeans(s);
    hide Run, Lists, OpenOf, OnlineOf, Core, Mirror, Pairs, RoutingOk, PresenceAgrees, Recorded, Recovered,
        AllRestorable, CleanGuests, RestartStep;
    var rows := Run(EMPTY, Recovered(s, s')).sessions;
    OpenKeys(Db(s));
    assert forall k :: k in rows ==> k in Pairs(s.tm.guests);
    MirroredAreRestorable(s, rows);
    RestartKeepsCore(s, a, s');
    RestartMirrorsIff(s, a, s');
  }

  lemma OpenKeys(tb: Tables)
    ensures OpenOf(tb).Keys == tb.sessions.Keys
  {
  }

  lemma CloseKeepsInvariant(s: Server, a: Action, s': Server)
    requires Invariant(s) && a.Close? && Next(s, a, s')
    ensures Invariant(s')
  {
    hide Core, Mirror, PresenceAgrees, RoutingOk, CleanGuests, CloseStep, SettledStep, LoggedOutBy, Connected;
    CloseIsSettled(s, a.d, s');
    DepartingKeepsInvariant(s, a.d.calls + [TimedOut(a.d.hdl, a.d.LoggedOut())], s');
  }

  lemma TimeoutsKeepInvariant(s: Server, a: Action, s': Server)
    requires Invariant(s) && a.Timeouts? && Next(s, a, s')
    ensures Invariant(s')
  {
    hide Core, Mirror, PresenceAgrees, RoutingOk, CleanGuests, TimeoutStep, SettledStep, LoggedOutBy, Connected,
        SweepCalls;
    TimeoutsAreSettled(s, a, s');
    DepartingKeepsInvariant(s, SweepCalls(a.trace), s');
  }

  /** Every step of a polite client keeps memory, presence and database in agreement. */
  lemma StepKeepsInvariant(s: Server, a: Action, s': Server)
    requires Invariant(s) && Next(s, a, s') && Polite(s, a)
    ensures Invariant(s')
  {
    hide Invariant, Next, Polite;
    match a
    case Login(_, _, _, _) => LoginKeepsInvariant(s, a, s');
    case Join(_, _, _, _, _) => JoinKeepsInvariant(s, a, s');
    case Leave(_, _, _) => LeaveKeepsInvariant(s, a, s');
    case Close(_) => CloseKeepsInvariant(s, a, s');
    case Ping(_, _) => PingKeepsInvariant(s, a, s');
    case ReportVersion(_, _, _) => VersionKeepsInvariant(s, a, s');
    case Timeouts(_, _, _) => TimeoutsKeepInvariant(s, a, s');
    case PruneRecovered(_) => PruneKeepsInvariant(s, a, s');
    case AdminDisconnect(_, _, _) => AdminKeepsInvariant(s, a, s');
    case Beat => BeatKeepsInvariant(s, a, s');
    case Restart(_, _) => RestartKeepsInvariant(s, a, s');
  }

  // ---- what holds whatever clients do -----------------------------------------------------

  lemma {:induction false} EndsOnlyShrink(open: OpenSessions, ops: seq<Op>)
    requires forall i :: 0 <= i < |ops| ==> ops[i].EndSession?
    ensures forall k :: k in RunOpen(open, ops) ==> k in open && RunOpen(open, ops)[k] == open[k]
    decreases |ops|
  {
    if ops != [] {
      EndsOnlyShrink(open, ops[..|ops| - 1]);
    }
  }

  lemma AdminRows(s: Server, a: Action, s': Server)
    requires Core(s) && a.AdminDisconnect? && AdminStep(s, a, s')
    ensures SelfHostedRows(OpenOf(Db(s'))) && Sorted(1, s'.history)
    ensures ServerSteps.InTune(s'.tm, s'.log)
  {
    hide OpenOf, OnlineOf, Run, RunOpen, RunOnline, Recorded, Alternates, OpenPairs, OpsOf, Pairs, SessionMapOk, Sorted,
         EndsExactly, DropTransmission, LoggedOutBy;
    ServerSteps.EndsSettle(s.tm, a.ended, s'.tm, s.log, OpenOf(Db(s)), OnlineOf(Db(s)));
    CallsNeverRecover(a.ended);
    RunAppends(OpenOf(Db(s)), OnlineOf(Db(s)), OpsOf(a.ended), a.leftovers);
    EndsOnlyShrink(RunOpen(OpenOf(Db(s)), OpsOf(a.ended)), a.leftovers);
    DbFollows(s, OpsOf(a.ended) + a.leftovers, s');
  }

  lemma AdminKeepsCore(s: Server, a: Action, s': Server)
    requires Core(s) && a.AdminDisconnect? && Next(s, a, s')
    ensures Core(s')
  {
    hide OpenOf, Run, Recorded, Alternates, OpenPairs, OpsOf, Pairs, SessionMapOk, Sorted, EndsExactly, SelfHostedRows;
    AdminRows(s, a, s');
    ReleaseKeepsSessionMap(s.tm, a.transmission);
  }

  lemma SettledKeepsCore(s: Server, calls: seq<Call>, s': Server)
    requires Core(s) && SettledStep(s, calls, s')
    ensures Core(s')
  {
    hide Core, SettledStep;
    SettledRows(s, calls, s');
  }

  lemma QuietStepKeepsCore(s: Server, a: Action, s': Server)
    requires Core(s) && (a.Ping? || a.Beat? || a.ReportVersion?) && Next(s, a, s')
    ensures Core(s')
  {
    hide Pairs, OnlineOf, OpenOf, Run, Alternates, OpenPairs;
    if a.ReportVersion? {
      hide SessionMapOk, Recorded;
      VersionRuns(s, a, s');
    }
    if a.Beat? {
      hide SessionMapOk;
      DbFollows(s, [Heartbeat], s');
      OneRuns(OpenOf(Db(s)), OnlineOf(Db(s)), Heartbeat);
    }
  }

  /** Session lists, self-hosting and the alternation of callbacks survive every step of any client. */
  lemma StepKeepsCore(s: Server, a: Action, s': Server)
    requires Core(s) && Next(s, a, s')
    ensures Core(s')
  {
    hide Core, SettledStep, EndsExactly, Recorded, LoginStep, JoinStep, CloseStep, TimeoutStep, AdminStep, RestartStep,
         SessionMapOk, FilterGuests;
    match a
    case Login(_, _, _, _) => LoginKeepsCore(s, a, s');
    case Join(_, _, _, _, _) => JoinKeepsCore(s, a, s');
    case Leave(user, t, ended) =>
      CoreHasSessionMap(s);
      LeaveKeepsSessionMap(s.tm, user, t);
      EndingIsSettled(s, ended, s');
      SettledKeepsCore(s, ended, s');
    case Close(d) =>
      CloseIsSettled(s, d, s');
      SettledKeepsCore(s, d.calls + [TimedOut(d.hdl, d.LoggedOut())], s');
    case Timeouts(_, _, tr) =>
      TimeoutsAreSettled(s, a, s');
      SettledKeepsCore(s, SweepCalls(tr), s');
    case PruneRecovered(ended) =>
      CoreHasSessionMap(s);
      PruneLeavesConnected(s.tm);
      EndingIsSettled(s, ended, s');
      SettledKeepsCore(s, ended, s');
    case AdminDisconnect(_, _, _) => AdminKeepsCore(s, a, s');
    case Restart(_, _) => RestartKeepsCore(s, a, s');
    case _ => QuietStepKeepsCore(s, a, s');
  }

  lemma CoreHasSessionMap(s: Server)
    requires Core(s)
    ensures SessionMapOk(s.tm)
  {
  }

  // ---- whole runs -------------------------------------------------------------------------

  /** A run: the server starts on a database that does not exist yet and takes one step after another,
      crashes and restarts included. */
  ghost predicate IsRun(states: seq<Server>, actions: seq<Action>) {
    && |states| == |actions| + 1 && states[0] == BLANK
    && forall i :: 0 <= i < |actions| ==> Next(states[i], actions[i], states[i + 1])
  }

  lemma BlankIsFine()
    ensures Invariant(BLANK)
  {
    assert Run(EMPTY, []) == EMPTY;
    assert OpenOf(EMPTY) == map[] && InMemory(IDLE) == map[] && OnlineOf(EMPTY) == {} && Connected(IDLE) == {};
  }

  /** In every state of every run of polite clients: the sessions in memory are the rows of the database with the
      same hosts, who is bound is who is online, the routing indexes agree, and session callbacks alternate. */
  lemma {:induction false} RunsAreSafe(states: seq<Server>, actions: seq<Action>, n: nat)
    requires IsRun(states, actions) && n < |states|
    requires forall i :: 0 <= i < n ==> Polite(states[i], actions[i])
    ensures Invariant(states[n])
  {
    hide Invariant, Next, Polite;
    if n == 0 {
      BlankIsFine();
    } else {
      RunsAreSafe(states, actions, n - 1);
      assert Next(states[n - 1], actions[n - 1], states[n - 1 + 1]);
      StepKeepsInvariant(states[n - 1], actions[n - 1], states[n]);
    }
  }

  /** In every state of every run, whatever the clients send: session lists are in order, the session callbacks of
      the process alternate per pair and leave open exactly the sessions in memory, and conservation holds. */
  lemma {:induction false} RunsKeepCore(states: seq<Server>, actions: seq<Action>, n: nat)
    requires IsRun(states, actions) && n < |states|
    ensures Core(states[n])
    ensures GrandTotal(Db(states[n]).presence, Controller) == GrandTotal(Db(states[n]).presence, Controlled)
  {
    if n == 0 {
      BlankIsFine();
    } else {
      hide Core, Next, GrandTotal;
      RunsKeepCore(states, actions, n - 1);
      assert Next(states[n - 1], actions[n - 1], states[n - 1 + 1]);
      StepKeepsCore(states[n - 1], actions[n - 1], states[n]);
    }
    hide Core, GrandTotal;
    ServerConserves(states[n]);
  }

  // ---- clean departures -------------------------------------------------------------------

  predicate HasNoPart(tm: TM, u: Id) {
    u !in Connected(tm) && u !in tm.hostOf.Values && forall p :: p in Pairs(tm.guests) ==> p.1 != u
  }

  lemma SelfHostsOne(tm: TM, u: Id)
    requires SelfHosting(tm)
    ensures HostsAtMostOne(tm, u)
  {
  }

  lemma DepartedHasNoPart(tm: TM, d: Departure)
    requires SessionMapOk(tm) && SelfHosting(tm) && Departs(tm, d)
    ensures SelfHosting(d.after) && (d.LoggedOut() != "" ==> HasNoPart(d.after, d.LoggedOut()))
  {
    hide Departs, SessionMapOk, Connected, Pairs, HostsAtMostOne;
    ServerSteps.DepartureHosts(tm, d);
    if d.LoggedOut() != "" {
      SelfHostsOne(tm, d.LoggedOut());
      CleanDeparture(tm, d);
    }
  }

  /** Later departures of a sweep give nobody a part again. */
  lemma StillHasNoPart(tm: TM, d: Departure, u: Id)
    requires SessionMapOk(tm) && Departs(tm, d) && HasNoPart(tm, u)
    ensures HasNoPart(d.after, u)
  {
    hide Departs, SessionMapOk, Connected, Pairs;
    ServerSteps.DepartureHosts(tm, d);
    ServerSteps.DepartedWasConnected(tm, d);
    if d.LoggedOut() != "" {
      CleanDeparture(tm, d);
    } else {
      DepartureEndsNothing(tm, d);
    }
  }

  lemma DepartureEndsNothing(tm: TM, d: Departure)
    requires Departs(tm, d) && d.LoggedOut() == ""
    ensures d.after.guests == tm.guests
  {
  }

  /** The user had a socket and has none any more. */
  predicate Departed(before: TM, after: TM, u: Id) {
    u != "" && u in Connected(before) && u !in Connected(after)
  }

  lemma ClosedHasNoPart(tm: TM, d: Departure, u: Id)
    requires SessionMapOk(tm) && SelfHosting(tm) && Departs(tm, d) && Departed(tm, d.after, u)
    ensures HasNoPart(d.after, u)
  {
    hide Departs, SessionMapOk, SelfHosting, HasNoPart, Connected;
    DepartureLogsOut(tm, d, u);
    DepartedHasNoPart(tm, d);
  }

  lemma {:induction false} SweptHasNoPart(tm: TM, tr: Trace, u: Id)
    requires SessionMapOk(tm) && SelfHosting(tm) && Sweep(tm, tr)
    ensures SessionMapOk(AfterAll(tm, tr)) && SelfHosting(AfterAll(tm, tr))
    ensures Departed(tm, AfterAll(tm, tr), u) ==> HasNoPart(AfterAll(tm, tr), u)
  {
    hide Departs, SessionMapOk, SelfHosting, HasNoPart, Connected;
    if tr.Then? {
      var mid, d := AfterAll(tm, tr.before), tr.last;
      SweptHasNoPart(tm, tr.before, u);
      DepartedHasNoPart(mid, d);
      DepartureKeepsSessionMap(mid, d);
      if Departed(tm, mid, u) {
        StillHasNoPart(mid, d, u);
      } else if Departed(mid, d.after, u) {
        ClosedHasNoPart(mid, d, u);
      }
    }
  }

  lemma DepartedInStep(s: Server, a: Action, s': Server, u: Id)
    requires Core(s) && Next(s, a, s') && (a.Close? || a.Timeouts?) && Departed(s.tm, s'.tm, u)
    ensures HasNoPart(s'.tm, u)
  {
    hide Departs, SessionMapOk, SelfHosting, HasNoPart, Departed, Sweep, CallsInTurn, Sorted, SelfHostedRows,
        TakesIn, Recorded, SweepCalls;
    match a
    case Close(d) => ClosedHasNoPart(s.tm, d, u);
    case Timeouts(_, _, trace) => SweptHasNoPart(s.tm, trace, u);
  }

  /** In every run, whatever clients send: a user whose last socket is closed or given up has no part in any session
      afterwards, being bound to no socket, host of no transmission and guest of none. */
  lemma RunsDepartCleanly(states: seq<Server>, actions: seq<Action>, n: nat, u: Id)
    requires IsRun(states, actions) && n < |actions| && (actions[n].Close? || actions[n].Timeouts?)
    requires Departed(states[n].tm, states[n + 1].tm, u)
    ensures HasNoPart(states[n + 1].tm, u)
  {
    hide Core, Next, HasNoPart, Departed;
    RunsKeepCore(states, actions, n);
    DepartedInStep(states[n], actions[n], states[n + 1], u);
  }

  // ---- what follows from it ---------------------------------------------------------------

  /** The two counts the statistics page takes the maximum of are the same number. */
  lemma CountsAgree(s: Server)
    requires Invariant(s)
    ensures |Pairs(s.tm.guests)| == |Db(s).sessions|
  {
    hide Run, OnlineOf, Pairs, PresenceAgrees, RoutingOk, CleanGuests, Mirror;
    MirrorMeans(s);
    OpenKeys(Db(s));
    hide *;
    assert |Db(s).sessions.Keys| == |Db(s).sessions|;
  }

  /** Closing a socket that already timed out, or that has a duplicate, logs nobody out and ends nothing. */
  lemma LateCloseIsHarmless(s: Server, d: Departure, s': Server)
    requires Invariant(s) && CloseStep(s, d, s')
    requires !LastHandle(s.tm, d.hdl)
    ensures s'.online == s.online && s'.web == s.web && OnlineOf(Db(s')) == OnlineOf(Db(s))
    ensures Connected(s'.tm) == Connected(s.tm) && Pairs(s'.tm.guests) == Pairs(s.tm.guests)
    ensures s'.tm.hostOf == s.tm.hostOf && OpenOf(Db(s')) == OpenOf(Db(s))
  {
    hide Core, Mirror, PresenceAgrees, CleanGuests, SettledStep, LoggedOutBy, EndsExactly, Recorded;
    assert d.LoggedOut() == "" by {
      StillConnected(s.tm, d);
    }
    CloseIsSettled(s, d, s');
    SettledRows(s, d.calls + [TimedOut(d.hdl, "")], s');
    assert d.calls + [TimedOut(d.hdl, "")] == [TimedOut(d.hdl, "")];
    assert LoggedOutBy([TimedOut(d.hdl, "")]) == {} by {
      ServerSteps.LoggedOutOne([], TimedOut(d.hdl, ""));
      assert [] + [TimedOut(d.hdl, "")] == [TimedOut(d.hdl, "")];
      NothingRuns(map[], {});
    }
    NobodyOut(s);
    assert OpenOf(Db(s)) - {} == OpenOf(Db(s));
  }

  lemma StillConnected(tm: TM, d: Departure)
    requires Departs(tm, d) && !LastHandle(tm, d.hdl)
    ensures d.LoggedOut() == ""
  {
    DepartureUnbinds(tm, d);
    assert d.unbound.userOf == tm.userOf - {d.hdl};
  }

  /** Whatever clients do, in every reachable state as many seconds were spent controlling as controlled. */
  lemma ServerConserves(s: Server)
    requires Core(s)
    ensures GrandTotal(Db(s).presence, Controller) == GrandTotal(Db(s).presence, Controlled)
  {
    hide GrandTotal, Run, Sorted;
    SecondsAreConserved(1, s.history, 0);
  }
}
