/** SignalServer with its PresenceManager: the objects whose handlers carry out the steps of the model. Every
    handler is proved to take one step of ServerModel, so what is proved of runs holds of these objects. */
module SignalServers {
  import opened Identity
  import opened Options
  import Orders
  import opened Ledger
  import opened Accounting
  import opened TextSearch
  import opened Transmission
  import TransmissionFacts
  import Transmissions
  import opened DeviceDB
  import opened Delivery
  import opened Restore
  import opened ServerModel
  import ServerSteps
  import ServerSafety
  import Geo = GeoIpModel
  import GeoIpSafety
  import GeoIpService

  lemma RecordedNothing(h: seq<Entry>)
    requires Sorted(1, h)
    ensures Recorded(h, [], h)
  {
  }

  lemma RecordedMore(h: seq<Entry>, ops: seq<Op>, mid: seq<Entry>, e: Entry)
    requires Recorded(h, ops, mid) && Sorted(1, mid + [e])
    ensures Recorded(h, ops + [e.op], mid + [e])
  {
    assert (mid + [e])[..|h|] == mid[..|h|];
    forall i | 0 <= i < |ops + [e.op]|
      ensures (mid + [e])[|h| + i].op == (ops + [e.op])[i]
    {
      if i < |ops| {
        assert mid[|h| + i].op == ops[i];
      }
    }
  }

  /** The network information after the device, if there is one, was seen at the address. */
  function Placed(infos: map<Id, Geo.Info>, d: Id, ip: Geo.Ip): map<Id, Geo.Info> {
    if d == "" then infos else infos[d := Geo.Bare(ip)]
  }

  /** The lookup queue after that: without a resolver nothing is looked up. */
  function Asked(resolves: bool, q: Geo.Queue, d: Id, ip: Geo.Ip, now: int): Geo.Queue {
    if !resolves || d == "" || ip == "" then q else Geo.Enqueue(q, ip, now)
  }

  /** Without a resolver or a device nothing is asked for; with them, what is asked for is what the login asks for in
      the lookup model. The device's information is its bare address in any case. */
  lemma AskedMeans(g: Geo.Geo, resolves: bool, d: Id, ip: Geo.Ip) returns (p: Geo.Path)
    requires g.io.Quiet?
    ensures Placed(g.net, d, ip) == if d == "" then g.net else g.net[d := Geo.Info(ip, "", "", "", "")]
    ensures !resolves || d == "" ==> Asked(resolves, g.q, d, ip, g.clock) == g.q
    ensures resolves && d != "" ==>
              && Geo.Walks(g, p) && GeoIpSafety.IsLogin(p, d, ip)
              && Geo.EndOf(g, p).q == Asked(true, g.q, d, ip, g.clock) && Geo.EndOf(g, p).net == Placed(g.net, d, ip)
  {
    hide Geo.Walks, Geo.Enqueue;
    p := Geo.Here;
    if resolves && d != "" {
      p := GeoIpSafety.LoginWalks(g, d, ip);
    }
  }

  /** The sessions that calls start have ids of which something reaches the database. */
  predicate StartsRegistered(calls: seq<Call>) {
    forall c :: c in calls && c.Started? ==> Registered(c.transmission, c.host)
  }

  class PresenceManager {
    var onlineDevices: set<Id>
    var onlineWebClients: set<Id>
    const db: DeviceDBManager
    const net: GeoIpService.NetworkInfo

    constructor (db: DeviceDBManager)
      ensures onlineDevices == {} && onlineWebClients == {} && this.db == db
      ensures fresh(net) && net.infos == map[]
    {
      onlineDevices, onlineWebClients := {}, {};
      this.db := db;
      net := new GeoIpService.NetworkInfo();
    }

    method OnLogin(d: Id)
      requires db.Valid()
      modifies this, db
      ensures db.Valid() && db.history == old(db.history) + [Entry(SetOnline(d), db.clock)]
      ensures onlineDevices == old(onlineDevices) + if IsTrackedDevice(d) then {d} else {}
      ensures onlineWebClients == old(onlineWebClients) + if IsWebClient(d) then {d} else {}
    {
      if IsTrackedDevice(d) {
        onlineDevices := onlineDevices + {d};
      } else if IsWebClient(d) {
        onlineWebClients := onlineWebClients + {d};
      }
      db.SetDeviceOnline(d, true);
    }

    /** Logs a device out; its network information goes with it. */
    method OnLogout(d: Id)
      requires db.Valid()
      modifies this, db, net
      ensures db.Valid() && db.history == old(db.history) + [Entry(SetOffline(d), db.clock)]
      ensures onlineDevices == old(onlineDevices) - if IsTrackedDevice(d) then {d} else {}
      ensures onlineWebClients == old(onlineWebClients) - if IsWebClient(d) then {d} else {}
      ensures net.infos == old(net.infos) - {d}
    {
      if IsTrackedDevice(d) {
        onlineDevices := onlineDevices - {d};
      } else if IsWebClient(d) {
        onlineWebClients := onlineWebClients - {d};
      }
      db.SetDeviceOnline(d, false);
      net.ForgetDevice(d);
    }
  }

  class SignalServer {
    const tm: Transmissions.TransmissionManager
    const db: DeviceDBManager
    const presence: PresenceManager
    const queue: GeoIpService.LookupQueue
    const resolves: bool  // geo_location_resolver_ was made

    ghost predicate Valid()
      reads this, tm, db, presence
    {
      tm.Valid() && db.Valid() && presence.db == db
    }

    /** What the server keeps for the GeoIP worker. */
    ghost predicate GeoIs(g: Geo.Geo)
      reads this, presence, presence.net, queue
    {
      g.net == presence.net.infos && g.q == queue.State()
    }

    ghost function State(): Server
      reads this, tm, db, presence
    {
      Server(tm.State(), presence.onlineDevices, presence.onlineWebClients, tm.calls, db.history)
    }

    /** Takes over from the process `before`: opens the database it left and rebuilds its sessions. */
    constructor (disk: Tables, ghost before: Server, now: int, lookupsEnabled: bool)
      requires FIRST_SECOND <= now && IsReplay(disk, before.history, now)
      ensures resolves == lookupsEnabled
      ensures Valid() && fresh(tm) && fresh(db) && fresh(presence) && fresh(presence.net) && fresh(queue)
      ensures presence.net.infos == map[] && queue.State() == Geo.Queue(multiset{}, map[], map[], false)
      ensures exists a: Action :: a.Restart? && RestartStep(before, a, State())
    {
      tm := new Transmissions.TransmissionManager();
      var manager := new DeviceDBManager.InitDB(disk, before.history, now);
      db := manager;
      presence := new PresenceManager(manager);
      queue := new GeoIpService.LookupQueue();
      resolves := lookupsEnabled;
      new;
      ghost var reopened := db.history;
      ghost var recovered := State();
      var list, groups := RestorePersistedSessions();
      RecoveryIsRecorded(before.history, reopened);
      ghost var a := Restart(list, groups);
      assert Recovered(before, State()) == reopened;
      assert RestartStep(before, a, State());
    }

    /** RestorePersistedRemoteControlSessions. */
    method RestorePersistedSessions() returns (list: seq<SessionInfo>, ghost groups: seq<seq<Id>>)
      requires Valid() && tm.State() == IDLE && tm.calls == [] && presence.onlineDevices == {}
          && presence.onlineWebClients == {}
      modifies tm, db, presence, presence.net
      ensures Valid() && Lists(old(db.sessions), list, groups)
      ensures tm.State() == RestoreAll(list) && tm.calls == RestoreCalls(list)
      ensures Recorded(old(db.history), OpsOf(RestoreCalls(list)), db.history)
      ensures presence.onlineDevices == {} && presence.onlineWebClients == {}
      ensures presence.net.infos == old(presence.net.infos)
    {
      list, groups := db.ListRemoteControlSessions("");
      EmptySearchMatchesAll(db.sessions);
      RestoreTransmissions(list);
      RowsAreNamed();
      RestoredAreRegistered(db.sessions, list, groups);
      Deliver(tm.calls);
      RestoresLogNobodyOut(list);
    }

    method RestoreTransmissions(list: seq<SessionInfo>)
      requires tm.Valid() && tm.State() == IDLE && tm.calls == []
      modifies tm
      ensures tm.Valid() && tm.State() == RestoreAll(list) && tm.calls == RestoreCalls(list)
    {
      for i := 0 to |list|
        invariant tm.Valid() && tm.State() == RestoreAll(list[..i]) && tm.calls == RestoreCalls(list[..i])
      {
        hide RestoreAll, RestoreCalls, BindGuests, BindGuestsCalls;
        var info := list[i];
        assert list[..i + 1][..i] == list[..i];
        RestoreLast(list[..i + 1]);
        var isNew := tm.BindHostToTransmission(info.host, info.transmission);
        RestoreGuests(info.transmission, info.guests);
      }
      assert list[..|list|] == list;
    }

    method RestoreGuests(t: Id, guests: seq<Id>)
      requires tm.Valid()
      modifies tm
      ensures tm.Valid() && tm.State() == BindGuests(old(tm.State()), t, guests)
      ensures tm.calls == old(tm.calls) + BindGuestsCalls(old(tm.State()), t, guests)
    {
      ghost var s, made := tm.State(), tm.calls;
      for j := 0 to |guests|
        invariant tm.Valid() && tm.State() == BindGuests(s, t, guests[..j])
        invariant tm.calls == made + BindGuestsCalls(s, t, guests[..j])
      {
        hide BindGuests, BindGuestsCalls;
        assert guests[..j + 1][..j] == guests[..j];
        BindGuestsLast(s, t, guests[..j + 1]);
        BindGuestsHosts(s, t, guests[..j]);
        Orders.Concat(made, BindGuestsCalls(s, t, guests[..j]),
               if Joins(tm.State(), guests[j], t) then [Started(t, HostName(s.hostOf, t), guests[j])] else []);
        var joined := tm.BindGuestToTransmission(guests[j], t);
      }
      assert guests[..|guests|] == guests;
    }

    /** The callbacks SignalServer installs: session callbacks go to the database, timeouts to OnSessionTimeout. */
    method Deliver(calls: seq<Call>)
      requires Valid() && StartsRegistered(calls)
      modifies db, presence, presence.net
      ensures Valid() && TakesIn(old(State()), calls, State())
      ensures presence.net.infos == old(presence.net.infos) - LoggedOutBy(calls)
    {
      hide IsTrackedDevice, IsWebClient, TakesIn, LoggedOutBy, Recorded, IsReplay, SessionMapOk;
      HistoryIsSorted();
      RecordedNothing(db.history);
      ghost var s := State();
      NobodyIn(s);
      NobodyOutYet(presence.net.infos);
      for i := 0 to |calls|
        invariant Valid() && TakesIn(s, calls[..i], State())
        invariant presence.net.infos == old(presence.net.infos) - LoggedOutBy(calls[..i])
      {
        ServerSteps.LoggedOutAppends(calls[..i], [calls[i]]);
        assert calls[i] in calls;
        ghost var mid := State();
        DeliverOne(calls[i]);
        TakesInMore(s, calls[..i], mid, calls[i], State());
        assert calls[..i] + [calls[i]] == calls[..i + 1];
      }
      assert calls[..|calls|] == calls;
    }

    lemma HistoryIsSorted()
      requires Valid()
      ensures Sorted(1, db.history)
    {
    }

    lemma RowsAreReplayed()
      requires Valid()
      ensures db.sessions == Run(EMPTY, db.history).sessions
    {
    }

    lemma RowsAreNamed()
      requires Valid()
      ensures RowsAreStored(db.sessions)
    {
      hide IsReplay;
      StoredIds(db.Contents(), db.history, db.clock);
    }

    method DeliverOne(c: Call)
      requires Valid() && StartsRegistered([c])
      modifies db, presence, presence.net
      ensures Valid() && TakesIn(old(State()), [c], State())
      ensures presence.net.infos == old(presence.net.infos) - LoggedOutBy([c])
    {
      hide IsTrackedDevice, IsWebClient, Apply, Run, WellFormed, OpsOf, LoggedOutBy, Recorded, IsReplay, Registered,
          TakesIn, SessionMapOk, Sorted;
      ghost var s := State();
      match c {
        case Started(t, host, g) =>
          assert c in [c];
          var ok := db.StartRemoteControlSession(t, host, g);
        case Ended(t, host, g) =>
          var ok := db.EndRemoteControlSession(t, host, g);
        case TimedOut(_, u) =>
          if u != "" {
            presence.OnLogout(u);
          }
      }
      HistoryIsSorted();
      OneCall(c);
      CallTakenIn(s, c, State(), db.clock);
    }

    // ---- messages -------------------------------------------------------------------------

    /** login_user: binds the accepted id and clears what its client said it is. */
    method LoginUser(h: Handle, accepted: Option<Id>, registered: bool, now: int) returns (ghost ops: seq<Op>)
      requires Valid() && (accepted.Some? ==> accepted.value != "")
      modifies tm, db
      ensures Valid() && tm.State() == AfterLogin(old(tm.State()), h, accepted, now) && tm.calls == old(tm.calls)
      ensures ops == LoginOps(accepted, registered, "") && Recorded(old(db.history), ops, db.history)
    {
      hide IsTrackedDevice, Apply, Run, WellFormed, IsReplay, Recorded, LoginOps, SessionMapOk, Sorted;
      ghost var past := db.history;
      HistoryIsSorted();
      RecordedNothing(past);
      ops := [];
      if accepted.Some? {
        var u := accepted.value;
        var ok := tm.BindUserToWsHandle(u, h, now);
        var isNew := tm.BindHostToTransmission(u, u);
        if registered && IsTrackedDevice(u) {
          var stored := db.UpdateDeviceClientInfo(u, NO_CLIENT);
          HistoryIsSorted();
          RecordedMore(past, [], past, db.history[|past|]);
          ops := [] + [ClientInfo(u, NO_CLIENT)];
        }
      }
      LoginOpsAre(accepted, registered, "", ops);
    }

    /** EnqueueClientNetworkInfo: forgets where the device was before, and asks where its address is if there is a
        resolver. With one these are the login steps of the lookup model, from any state `g` of it that the objects are
        in. */
    method EnqueueClientNetworkInfo(d: Id, ip: Geo.Ip, now: int, ghost g: Geo.Geo) returns (ghost p: Geo.Path)
      requires GeoIs(g) && g.io.Quiet? && g.clock == now
      modifies presence.net, queue
      ensures resolves && d != "" ==> Geo.Walks(g, p) && GeoIpSafety.IsLogin(p, d, ip) && GeoIs(Geo.EndOf(g, p))
      ensures presence.net.infos == Placed(old(presence.net.infos), d, ip)
      ensures queue.State() == Asked(resolves, old(queue.State()), d, ip, now)
    {
      p := Geo.Here;
      if d == "" {
        return;
      }
      presence.net.SetDeviceNetworkInfo(d, Geo.Bare(ip));
      if resolves {
        queue.EnqueueGeoIpLookup(ip, 0, now);
        p := GeoIpSafety.LoginWalks(g, d, ip);
      }
    }

    /** The presence step, and the network information. */
    method Appear(id: Id, ip: Geo.Ip, now: int)
      requires Valid() && id != ""
      modifies db, presence, presence.net, queue
      ensures Valid() && db.history == old(db.history) + [Entry(SetOnline(id), db.clock)] && Sorted(1, db.history)
      ensures presence.onlineDevices == old(presence.onlineDevices) + if IsTrackedDevice(id) then {id} else {}
      ensures presence.onlineWebClients == old(presence.onlineWebClients) + if IsWebClient(id) then {id} else {}
      ensures presence.net.infos == Placed(old(presence.net.infos), id, ip)
      ensures queue.State() == Asked(resolves, old(queue.State()), id, ip, now)
    {
      hide IsTrackedDevice, IsWebClient, Apply, Run, WellFormed, IsReplay, Sorted, Geo.Enqueue, Geo.Walks, Geo.Bare;
      presence.OnLogin(id);
      HistoryIsSorted();
      ghost var g := Geo.Geo(queue.State(), presence.net.infos, map[], now, Geo.Quiet, Geo.Idle, map[], {}, {});
      ghost var p := EnqueueClientNetworkInfo(id, ip, now, g);
    }

    /** "login": login_user, then the presence step. `accepted` is the id login_user binds, if it does; `ip` the
        address of the socket. */
    method OnLogin(h: Handle, accepted: Option<Id>, registered: bool, now: int, ip: Geo.Ip)
      requires Valid() && (accepted.Some? ==> accepted.value != "")
      modifies tm, db, presence, presence.net, queue
      ensures Valid() && Next(old(State()), Login(h, accepted, registered, now), State())
      ensures presence.net.infos == Placed(old(presence.net.infos), UserOf(tm.State(), h), ip)
      ensures queue.State() == Asked(resolves, old(queue.State()), UserOf(tm.State(), h), ip, now)
    {
      hide IsTrackedDevice, IsWebClient, Apply, Run, WellFormed, IsReplay, Recorded, LoginOps, SessionMapOk, Sorted,
          AfterLogin, LoginStep, Geo.Enqueue, Geo.Walks, Geo.Bare;
      ghost var s := State();
      ghost var past := db.history;
      ghost var ops := LoginUser(h, accepted, registered, now);
      ghost var mid := db.history;
      var id := tm.GetUserId(h);
      if id != "" {
        Appear(id, ip, now);
        RecordedMore(past, ops, mid, db.history[|mid|]);
      }
      LoginOpsGrow(accepted, registered, id);
      if id == "" {
        assert ops + [] == ops;
      }
      LoginIsStep(s, Login(h, accepted, registered, now), State());
    }

    /** "join_transmission". `verified` says whether the password check passed, which only an id of a device in the
        database does. */
    method OnJoin(h: Handle, user: Id, t: Id, verified: bool, expired: set<Handle>)
      requires Valid() && SelfHosting(tm.State()) && (verified ==> Stored(t) != "")
      modifies tm, db, presence, presence.net
      ensures Valid() && Next(old(State()), Join(h, user, t, verified, expired), State())
    {
      hide IsTrackedDevice, IsWebClient, Apply, Run, WellFormed, IsReplay, TakesIn, Recorded, SessionMapOk, Stored,
          StartsRegistered, LoggedOutBy, Sorted;
      ghost var s := State();
      ghost var a := Join(h, user, t, verified, expired);
      NothingHappens(s) by {
        HistoryIsSorted();
      }
      if !verified {
        return;
      }
      var host := tm.GetHostIdOfTransmission(t);
      var hostHandle := tm.GetWsHandle(host);
      if host == "" || hostHandle == NoOwner || hostHandle in expired {
        return;
      }
      var sender := tm.GetUserId(h);
      if sender != user {
        return;
      }
      var mark := |tm.calls|;
      var joined := tm.BindGuestToTransmission(user, t);
      assert tm.calls[mark..] == JoinCalls(s.tm, a);
      JoinIsRegistered(s.tm, a);
      Deliver(tm.calls[mark..]);
      TakesInMemory(s, JoinCalls(s.tm, a), s.(tm := tm.State(), log := tm.calls), State());
    }

    /** "user_leave_transmission". */
    method OnLeave(user: Id, t: Id) returns (ghost ended: seq<Call>)
      requires Valid()
      modifies tm, db, presence, presence.net
      ensures Valid() && Next(old(State()), Leave(user, t, ended), State())
    {
      hide TakesIn, EndsExactly, IsReplay, SessionMapOk, StartsRegistered, LoggedOutBy;
      ghost var s := State();
      var mark := |tm.calls|;
      var isHost := tm.IsHostOfTransmission(user, t);
      if isHost {
        ended := tm.ReleaseTransmission(t);
      } else {
        var released;
        released, ended := tm.ReleaseGuestFromTransmission(user);
      }
      assert tm.calls[mark..] == ended;
      EndsStartNothing(ended, s.tm.hostOf, Pairs(s.tm.guests), Pairs(tm.guests));
      Deliver(tm.calls[mark..]);
      TakesInMemory(s, ended, s.(tm := tm.State(), log := tm.calls), State());
    }

    /** OnPing, OnPong and the "ping" message. */
    method OnPing(h: Handle, now: int)
      requires Valid()
      modifies tm
      ensures Valid() && Next(old(State()), Ping(h, now), State())
    {
      var known := tm.UpdateWsHandleLastActiveTime(h, now);
    }

    /** "client_info". */
    method OnClientInfo(h: Handle, version: Option<string>, platform: Option<string>)
      requires Valid()
      modifies db
      ensures Valid() && Next(old(State()), ReportVersion(h, version, platform), State())
    {
      hide IsTrackedDevice, Apply, Run, WellFormed, IsReplay, Recorded;
      ghost var past := db.history;
      HistoryIsSorted();
      RecordedNothing(past);
      if !WellSized(version, MAX_VERSION) || !WellSized(platform, MAX_PLATFORM) {
        return;
      }
      var u := tm.GetUserId(h);
      if u == "" || !IsTrackedDevice(u) {
        return;
      }
      var client := Client(version.value, platform.value);
      var stored := db.UpdateDeviceClientInfo(u, client);
      HistoryIsSorted();
      RecordedMore(past, [], past, db.history[|past|]);
      assert [] + [ClientInfo(u, client)] == [ClientInfo(u, client)];
    }

    /** OnClose and OnFail. */
    method OnClose(h: Handle) returns (ghost d: Departure)
      requires Valid()
      modifies tm, db, presence, presence.net
      ensures Valid() && d.hdl == h && Next(old(State()), Close(d), State())
    {
      hide TakesIn, Departs, IsReplay, SessionMapOk, StartsRegistered, LoggedOutBy;
      ghost var s := State();
      var mark := |tm.calls|;
      var user;
      user, d := tm.ReleaseUserSession(h);
      DepartureUnbinds(s.tm, d);
      tm.RemoveWsHandleLastActiveTime(h);
      assert tm.calls[mark..] == d.calls;
      ghost var left := s.(tm := tm.State(), log := tm.calls);
      assert tm.State() == d.after;
      DepartureStartsNothing(s.tm, d);
      Deliver(tm.calls[mark..] + [TimedOut(h, user)]);
      TakesInMemory(s, d.calls + [TimedOut(h, user)], left, State());
    }

    // ---- timers ---------------------------------------------------------------------------

    /** AliveChecker: the sweep, with OnSessionTimeout for every handle it gives up. */
    method OnAliveCheck(expired: set<Handle>, now: int) returns (ghost trace: Trace)
      requires Valid()
      modifies tm, db, presence, presence.net
      ensures Valid() && Next(old(State()), Timeouts(expired, now, trace), State())
    {
      hide TakesIn, Sweep, SweepCalls, Inactive;
      ghost var s := State();
      var mark := |tm.calls|;
      trace := tm.ExpireInactiveSessions(expired, now);
      assert tm.calls[mark..] == SweepCalls(trace);
      ghost var swept := s.(tm := tm.State(), log := tm.calls);
      SweepStartsNothing(s.tm, trace);
      Deliver(tm.calls[mark..]);
      TakesInMemory(s, SweepCalls(trace), swept, State());
    }

    /** The clean-up two minutes after start. */
    method OnRecoveredSessionCleanup() returns (pruned: nat, ghost ended: seq<Call>)
      requires Valid()
      modifies tm, db, presence, presence.net
      ensures Valid() && Next(old(State()), PruneRecovered(ended), State())
      ensures pruned == |ended| == |Pairs(old(tm.guests))| - |Pairs(tm.guests)|
    {
      hide TakesIn, EndsExactly, Pairs, Prune, IsReplay, SessionMapOk, StartsRegistered, LoggedOutBy;
      ghost var s := State();
      var mark := |tm.calls|;
      pruned, ended := tm.PruneDisconnectedTransmissions();
      EndsCount(ended, s.tm.hostOf, Pairs(s.tm.guests), Pairs(tm.guests));
      assert tm.calls[mark..] == ended;
      ghost var left := s.(tm := tm.State(), log := tm.calls);
      EndsStartNothing(ended, s.tm.hostOf, Pairs(s.tm.guests), Pairs(tm.guests));
      Deliver(tm.calls[mark..]);
      TakesInMemory(s, ended, left, State());
    }

    method OnHeartbeat()
      requires Valid()
      modifies db
      ensures Valid() && Next(old(State()), Beat, State())
    {
      hide Apply, Run, WellFormed, IsReplay;
      ghost var past := db.history;
      HistoryIsSorted();
      RecordedNothing(past);
      db.RecordRuntimeHeartbeat();
      HistoryIsSorted();
      RecordedMore(past, [], past, db.history[|past|]);
      assert [] + [Heartbeat] == [Heartbeat];
    }

    // ---- the dashboard --------------------------------------------------------------------

    /** Ends the sessions that the database still has of a transmission. */
    method EndPersisted(t: Id) returns (persisted: bool, ghost leftovers: seq<Op>)
      requires Valid() && t != ""
      modifies db
      ensures Valid() && persisted == (leftovers != [])
      ensures Recorded(old(db.history), leftovers, db.history)
      ensures forall open: OpenSessions :: open.Keys == old(db.sessions).Keys ==> EndsLeftovers(leftovers, t, open)
    {
      hide Apply, Run, WellFormed, Lists, Recorded, EndsLeftovers, EndEntries, OpsSince, Sorted, Matching, Stored,
          NoNul, RowsAreStored, IsReplay, SessionMapOk;
      ghost var delivered, rows := db.history, db.sessions;
      var list, groups := db.ListRemoteControlSessions(t);
      persisted := exists i :: 0 <= i < |list| && list[i].transmission == t;
      leftovers := [];
      RowsAreNamed();
      PersistedIffRow(rows, list, groups, t);
      HistoryIsSorted();
      if persisted {
        var done, keys := db.EndRemoteControlTransmission(t);
        leftovers := OpsSince(delivered, db.history);
        HistoryIsSorted();
        SomeEnded(rows, t, keys);
        LeftoversEnd(delivered, db.history, keys, t, rows);
      } else {
        NoLeftoversToEnd(delivered, t, rows);
      }
    }

    /** AdminController::HandleDisconnect. */
    method HandleDisconnect(t: Id) returns (alreadyClosed: bool, ghost ended: seq<Call>, ghost leftovers: seq<Op>)
      requires Valid() && t != ""
      modifies tm, db, presence, presence.net
      ensures Valid() && Next(old(State()), AdminDisconnect(t, ended, leftovers), State())
      ensures alreadyClosed == (t !in old(tm.hostOf) && leftovers == [])
    {
      hide IsTrackedDevice, IsWebClient, Run, EndsExactly, Pairs, TakesIn, Recorded, EndsLeftovers, SessionMapOk,
          StartsRegistered, DropTransmission;
      ghost var s := State();
      var mark := |tm.calls|;
      var existed := t in tm.hostOf;
      var ok;
      ok, ended := tm.DisconnectTransmission(t);
      assert tm.calls[mark..] == ended;
      ghost var left := s.(tm := tm.State(), log := tm.calls);
      EndsStartNothing(ended, s.tm.hostOf, Pairs(s.tm.guests), Pairs(tm.guests));
      Deliver(tm.calls[mark..]);
      TakesInMemory(s, ended, left, State());
      ghost var delivered, rows := db.history, db.sessions;
      RowsAreReplayed();
      var persisted;
      persisted, leftovers := EndPersisted(t);
      alreadyClosed := !existed && !persisted;
      AdminSteps(s, State(), t, ended, leftovers, delivered, rows);
    }
  }

  // ---- lemmas -----------------------------------------------------------------------------

  lemma EndsStartNothing(calls: seq<Call>, hostOf: map<Id, Id>, before: set<Pair>, after: set<Pair>)
    requires EndsExactly(calls, hostOf, before, after)
    ensures StartsRegistered(calls)
  {
    hide Registered;
  }

  lemma DepartureStartsNothing(tm: TM, d: Departure)
    requires Departs(tm, d)
    ensures StartsRegistered(d.calls + [TimedOut(d.hdl, d.LoggedOut())])
  {
    hide Departs, Registered;
    TransmissionFacts.DepartureEnds(tm, d);
  }

  lemma {:induction false} SweepStartsNothing(tm: TM, tr: Trace)
    requires Sweep(tm, tr)
    ensures StartsRegistered(SweepCalls(tr))
  {
    hide Departs, Registered;
    if tr.Then? {
      SweepStartsNothing(tm, tr.before);
      DepartureStartsNothing(AfterAll(tm, tr.before), tr.last);
    }
  }

  lemma JoinIsRegistered(tm: TM, a: Action)
    requires a.Join? && SelfHosting(tm) && (a.verified ==> Stored(a.transmission) != "")
    ensures StartsRegistered(JoinCalls(tm, a))
  {
    hide Stored;
  }

  ghost predicate HostsRegistered(tm: TM) {
    forall t :: t in tm.hostOf ==> Registered(t, tm.hostOf[t])
  }

  lemma {:induction false} GuestsAreRegistered(s: TM, t: Id, guests: seq<Id>)
    requires HostsRegistered(s)
    ensures StartsRegistered(BindGuestsCalls(s, t, guests)) && HostsRegistered(BindGuests(s, t, guests))
    decreases |guests|
  {
    if guests != [] {
      hide Registered;
      GuestsAreRegistered(s, t, guests[..|guests| - 1]);
      BindGuestsHosts(s, t, guests[..|guests| - 1]);
      BindGuestsLast(s, t, guests);
    }
  }

  lemma {:induction false} RestoresAreRegistered(list: seq<SessionInfo>)
    requires forall i :: 0 <= i < |list| ==> Registered(list[i].transmission, list[i].host)
    ensures StartsRegistered(RestoreCalls(list)) && HostsRegistered(RestoreAll(list))
    decreases |list|
  {
    if list != [] {
      hide Registered;
      var info := list[|list| - 1];
      RestoresAreRegistered(list[..|list| - 1]);
      RestoreLast(list);
      hide RestoreAll, RestoreCalls;
      GuestsAreRegistered(BindHost(RestoreAll(list[..|list| - 1]), info.host, info.transmission), info.transmission,
                          info.guests);
    }
  }

  /** What is restored comes from the rows. */
  lemma RestoredAreRegistered(rows: map<SessionKey, SessionRow>, list: seq<SessionInfo>, groups: seq<seq<Id>>)
    requires Lists(rows, list, groups) && RowsAreStored(rows)
    ensures StartsRegistered(RestoreCalls(list))
  {
    hide SplitIds, TextSearch.Join, Stored, NoNul;
    forall i | 0 <= i < |list|
      ensures Registered(list[i].transmission, list[i].host)
    {
      assert groups[i][0] in groups[i];
      assert InGroup(rows, list[i].transmission, list[i].host, groups[i][0]);
    }
    RestoresAreRegistered(list);
  }

  lemma AdminSteps(s: Server, s': Server, t: Id, ended: seq<Call>, leftovers: seq<Op>, delivered: seq<Entry>,
                   rows: map<SessionKey, SessionRow>)
    requires SessionMapOk(s.tm) && s'.tm == DropTransmission(s.tm, t) && s'.log == s.log + ended
    requires EndsExactly(ended, s.tm.hostOf, Pairs(s.tm.guests), Pairs(s'.tm.guests))
    requires TakesIn(s, ended, s'.(history := delivered)) && Run(EMPTY, delivered).sessions == rows
    requires Recorded(delivered, leftovers, s'.history)
    requires forall open: OpenSessions :: open.Keys == rows.Keys ==> EndsLeftovers(leftovers, t, open)
    ensures Next(s, AdminDisconnect(t, ended, leftovers), s')
  {
    hide Pairs, EndsExactly, Recorded, EndsLeftovers, Run, RunOpen, RunOnline, OpsOf, OnlineOf;
    CallsNeverRecover(ended);
    ServerSafety.DbFollows(s, OpsOf(ended), s'.(history := delivered));
    RecordedAppends(s.history, OpsOf(ended), delivered, leftovers, s'.history);
    ServerSteps.EndsLogNobodyOut(ended, s.tm.hostOf, Pairs(s.tm.guests), Pairs(s'.tm.guests));
    hide LoggedOutBy;
    assert s.online - {} == s.online && s.web - {} == s.web;
  }

  lemma NoLeftoversToEnd(delivered: seq<Entry>, t: Id, rows: map<SessionKey, SessionRow>)
    requires Sorted(1, delivered) && !exists k :: k in rows && k.0 == t
    ensures Recorded(delivered, [], delivered)
    ensures forall open: OpenSessions :: open.Keys == rows.Keys ==> EndsLeftovers([], t, open)
  {
  }

  lemma PersistedIffRow(rows: map<SessionKey, SessionRow>, list: seq<SessionInfo>, groups: seq<seq<Id>>, t: Id)
    requires Lists(Matching(rows, t), list, groups) && RowsAreStored(rows)
    ensures (exists i :: 0 <= i < |list| && list[i].transmission == t) <==> (exists k :: k in rows && k.0 == t)
    ensures (exists k :: k in rows && k.0 == t) ==> NoNul(t)
  {
    hide SplitIds, Finds, NoNul;
    if k :| k in rows && k.0 == t {
      SelfMatch(t);
      assert k in Matching(rows, t);
      var i :| 0 <= i < |list| && IsGroup(list[i], k.0, rows[k].host);
    }
    if i :| 0 <= i < |list| && list[i].transmission == t {
      assert groups[i][0] in groups[i];
      assert InGroup(Matching(rows, t), t, list[i].host, groups[i][0]);
    }
  }

  lemma SomeEnded(rows: map<SessionKey, SessionRow>, t: Id, ended: seq<SessionKey>)
    requires Orders.Elements(ended) == RowsOf(rows, t) && exists k :: k in rows && k.0 == t
    ensures ended != []
  {
    var k :| k in rows && k.0 == t;
    assert k in RowsOf(rows, t);
  }

  function OpsSince(before: seq<Entry>, after: seq<Entry>): seq<Op>
    requires |before| <= |after|
  {
    seq(|after| - |before|, i requires 0 <= i < |after| - |before| => after[|before| + i].op)
  }

  lemma LeftoversEnd(before: seq<Entry>, after: seq<Entry>, ended: seq<SessionKey>, t: Id,
                    rows: map<SessionKey, SessionRow>)
    requires EndEntries(before, after, t, ended) && Orders.Distinct(ended) && Sorted(1, after) && t != ""
    requires Orders.Elements(ended) == RowsOf(rows, t)
    ensures forall open: OpenSessions :: open.Keys == rows.Keys ==> EndsLeftovers(OpsSince(before, after), t, open)
    ensures Recorded(before, OpsSince(before, after), after)
    ensures OpsSince(before, after) == [] <==> ended == []
  {
    var ops := OpsSince(before, after);
    forall i | 0 <= i < |ops|
      ensures ops[i].EndSession? && ops[i].transmission == t && (t, ops[i].guest) == ended[i] && ended[i] in rows
    {
      assert after[|before| + i].op == ops[i];
      assert ended[i] in Orders.Elements(ended);
    }
    forall k | k in rows && k.0 == t
      ensures exists i :: 0 <= i < |ops| && ops[i].guest == k.1
    {
      assert k in Orders.Elements(ended);
      var i :| 0 <= i < |ended| && ended[i] == k;
      assert ops[i].guest == k.1;
    }
  }

  lemma NothingHappens(s: Server)
    requires Sorted(1, s.history)
    ensures TakesIn(s, [], s)
  {
    RecordedNothing(s.history);
    assert LoggedOutBy([]) == {};
  }

  /** What callbacks do to presence and database does not depend on memory. */
  lemma TakesInMemory(s: Server, calls: seq<Call>, mid: Server, s': Server)
    requires TakesIn(mid, calls, s') && mid.online == s.online && mid.web == s.web && mid.history == s.history
    ensures TakesIn(s, calls, s')
  {
  }

  lemma LoginOpsAre(accepted: Option<Id>, registered: bool, id: Id, first: seq<Op>)
    requires var stores := accepted.Some? && registered && IsTrackedDevice(accepted.value);
             first == if stores then [ClientInfo(accepted.value, NO_CLIENT)] else []
    ensures LoginOps(accepted, registered, id) == if id != "" then first + [SetOnline(id)] else first
  {
  }

  lemma LoginIsStep(s: Server, a: Action, s': Server)
    requires a.Login? && (a.accepted.Some? ==> a.accepted.value != "")
    requires s'.tm == AfterLogin(s.tm, a.hdl, a.accepted, a.now) && s'.log == s.log
    requires var id := UserOf(s'.tm, a.hdl);
             && s'.online == (if id == "" then s.online else s.online + if IsTrackedDevice(id) then {id} else {})
             && s'.web == (if id == "" then s.web else s.web + if IsWebClient(id) then {id} else {})
             && Recorded(s.history, LoginOps(a.accepted, a.registered, id), s'.history)
    ensures Next(s, a, s')
  {
    hide Recorded, LoginOps, IsTrackedDevice, IsWebClient, AfterLogin;
    assert s.online + {} == s.online && s.web + {} == s.web;
  }

  lemma LoginOpsGrow(accepted: Option<Id>, registered: bool, id: Id)
    ensures LoginOps(accepted, registered, id)
         == LoginOps(accepted, registered, "") + if id != "" then [SetOnline(id)] else []
  {
  }

  lemma CallTakenIn(s: Server, c: Call, s': Server, at: int)
    requires s'.history == s.history + (if OpsOfCall(c) == [] then [] else [Entry(OpsOfCall(c)[0], at)]) && Sorted(1,
        s'.history)
    requires var out := if c.TimedOut? && c.user != "" then {c.user} else {};
             && s'.online == s.online - (set u | u in out && IsTrackedDevice(u))
             && s'.web == s.web - (set u | u in out && IsWebClient(u))
    ensures TakesIn(s, [c], s')
  {
    hide IsTrackedDevice, IsWebClient;
    OneCall(c);
    if OpsOfCall(c) == [] {
      assert s.history + [] == s.history;
      RecordedNothing(s.history);
    } else {
      SortedPrefix(s.history, s'.history);
      RecordedNothing(s.history);
      RecordedMore(s.history, [], s.history, Entry(OpsOfCall(c)[0], at));
      assert OpsOfCall(c) == [] + [OpsOfCall(c)[0]];
    }
  }

  lemma SortedPrefix(a: seq<Entry>, b: seq<Entry>)
    requires Sorted(1, b) && |a| <= |b| && b[..|a|] == a
    ensures Sorted(1, a)
  {
    assert forall i :: 0 <= i < |a| ==> a[i] == b[i];
  }

  lemma NobodyOutYet<V>(infos: map<Id, V>)
    ensures infos - LoggedOutBy([]) == infos
  {
    assert LoggedOutBy([]) == {};
  }

  lemma NobodyIn(s: Server)
    requires Recorded(s.history, [], s.history)
    ensures TakesIn(s, [], s)
  {
  }

  lemma OneCall(c: Call)
    ensures OpsOf([c]) == OpsOfCall(c)
    ensures LoggedOutBy([c]) == if c.TimedOut? && c.user != "" then {c.user} else {}
    ensures forall op: Op :: [] + [op] == [op]
  {
    assert [] + [c] == [c];
    OpsOfOne([], c);
    ServerSteps.LoggedOutOne([], c);
  }

  lemma TakesInMore(s: Server, calls: seq<Call>, mid: Server, c: Call, s': Server)
    requires TakesIn(s, calls, mid) && TakesIn(mid, [c], s')
    ensures TakesIn(s, calls + [c], s')
  {
    hide OpsOf, Recorded, IsTrackedDevice, IsWebClient, LoggedOutBy;
    OpsAppend(calls, [c]);
    ServerSteps.LoggedOutAppends(calls, [c]);
    RecordedAppends(s.history, OpsOf(calls), mid.history, OpsOf([c]), s'.history);
  }

  lemma RecoveryIsRecorded(past: seq<Entry>, reopened: seq<Entry>)
    requires |reopened| == |past| + 1 && reopened[..|past|] == past && reopened[|past|].op == Recover && Sorted(1,
        reopened)
    ensures Recorded(past, [Recover], reopened)
  {
  }

  lemma RestoreLast(list: seq<SessionInfo>)
    requires list != []
    ensures var front, info := list[..|list| - 1], list[|list| - 1];
            var bound := BindHost(RestoreAll(front), info.host, info.transmission);
            && RestoreAll(list) == BindGuests(bound, info.transmission, info.guests)
            && RestoreCalls(list) == RestoreCalls(front) + BindGuestsCalls(bound, info.transmission, info.guests)
  {
  }

  lemma {:induction false} BindGuestsHosts(s: TM, t: Id, guests: seq<Id>)
    ensures BindGuests(s, t, guests).hostOf == s.hostOf
    decreases |guests|
  {
    if guests != [] {
      BindGuestsLast(s, t, guests);
      BindGuestsHosts(s, t, guests[..|guests| - 1]);
    }
  }

  lemma {:induction false} GuestsAreStarts(s: TM, t: Id, guests: seq<Id>)
    ensures forall c :: c in BindGuestsCalls(s, t, guests) ==> c.Started?
    decreases |guests|
  {
    if guests != [] {
      GuestsAreStarts(s, t, guests[..|guests| - 1]);
    }
  }

  lemma {:induction false} RestoresAreStarts(list: seq<SessionInfo>)
    ensures forall c :: c in RestoreCalls(list) ==> c.Started?
    decreases |list|
  {
    if list != [] {
      var info := list[|list| - 1];
      RestoresAreStarts(list[..|list| - 1]);
      GuestsAreStarts(BindHost(RestoreAll(list[..|list| - 1]), info.host, info.transmission), info.transmission,
      info.guests);
    }
  }

  lemma RestoresLogNobodyOut(list: seq<SessionInfo>)
    ensures LoggedOutBy(RestoreCalls(list)) == {}
  {
    RestoresAreStarts(list);
  }
}
