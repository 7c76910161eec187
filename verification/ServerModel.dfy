/** The signalling server as a state machine: what is in memory, what is in the database, and every step that
    changes them. The state is that of one server process together with the database's whole history, so a run
    goes on through crashes and restarts. */
module ServerModel {
  import opened Identity
  import opened Options
  import opened Ledger
  import Accounting
  import opened Transmission
  import TransmissionFacts
  import opened Delivery
  import Restore

  datatype Server = Server(tm: TM,               // TransmissionManager
                           online: set<Id>,      // PresenceManager::online_devices_
                           web: set<Id>,         // PresenceManager::online_web_clients_
                           log: seq<Call>,       // session callbacks made by this process
                           history: seq<Entry>)  // persistent operations since the database was created

  const BLANK := Server(IDLE, {}, {}, [], [])

  ghost function Db(s: Server): Tables {
    Run(EMPTY, s.history)
  }

  /** What happens to the server. An action carries the outcome of whatever the code leaves open: the order of
      a map walk, a password check, which handles are dead. Times in `Login`, `Ping` and `Timeouts` are those of
      the steady clock; the database reads its own. */
  datatype Action =
    | Login(hdl: Handle, accepted: Option<Id>, registered: bool, now: int)
    | Join(hdl: Handle, user: Id, transmission: Id, verified: bool, expired: set<Handle>)
    | Leave(user: Id, transmission: Id, ended: seq<Call>)
    | Close(d: Departure)
    | Ping(hdl: Handle, now: int)
    | ReportVersion(hdl: Handle, version: Option<string>, platform: Option<string>)
    | Timeouts(expired: set<Handle>, now: int, trace: Trace)
    | PruneRecovered(ended: seq<Call>)
    | AdminDisconnect(transmission: Id, ended: seq<Call>, leftovers: seq<Op>)
    | Beat
    | Restart(list: seq<Restore.SessionInfo>, groups: seq<seq<Id>>)

  // ---- the steps --------------------------------------------------------------------------

  /** The users that the timeout callbacks (or the close handler) log out. */
  function LoggedOutBy(calls: seq<Call>): set<Id> {
    set c | c in calls && c.TimedOut? && c.user != "" :: c.user
  }

  /** The presence manager and the database take in the callbacks. */
  ghost predicate TakesIn(s: Server, calls: seq<Call>, s': Server) {
    && s'.online == s.online - (set u | u in LoggedOutBy(calls) && IsTrackedDevice(u))
    && s'.web == s.web - (set u | u in LoggedOutBy(calls) && IsWebClient(u))
    && Recorded(s.history, OpsOf(calls), s'.history)
  }

  function AfterLogin(tm: TM, h: Handle, accepted: Option<Id>, now: int): TM {
    if accepted.None? then tm
    else BindHost(BindUser(tm, accepted.value, h, now), accepted.value, accepted.value)
  }

  function LoginOps(accepted: Option<Id>, registered: bool, id: Id): seq<Op> {
    (if accepted.Some? && registered && IsTrackedDevice(accepted.value) then [ClientInfo(accepted.value, NO_CLIENT)]
     else [])
    + (if id != "" then [SetOnline(id)] else [])
  }

  /** login_user and the presence step after it. A refused login on a socket that is already logged in
      repeats the login of that socket's user. */
  ghost predicate LoginStep(s: Server, a: Action, s': Server)
    requires a.Login?
  {
    var id := UserOf(s'.tm, a.hdl);
    && (a.accepted.Some? ==> a.accepted.value != "")
    && s'.tm == AfterLogin(s.tm, a.hdl, a.accepted, a.now)
    && s'.online == s.online + (if id != "" && IsTrackedDevice(id) then {id} else {})
    && s'.web == s.web + (if id != "" && IsWebClient(id) then {id} else {})
    && s'.log == s.log
    && Recorded(s.history, LoginOps(a.accepted, a.registered, id), s'.history)
  }

  /** The first half of the presence step: the id goes into the set of its kind. */
  function Inserted(s: Server, id: Id): Server {
    s.(online := s.online + (if IsTrackedDevice(id) then {id} else {}),
       web := s.web + (if IsWebClient(id) then {id} else {}))
  }

  /** The second half: the database puts it online. */
  ghost predicate FlagStep(s: Server, id: Id, s': Server) {
    s' == s.(history := s'.history) && Recorded(s.history, [SetOnline(id)], s'.history)
  }

  /** The presence step alone: the user that GetUserId named is put online. */
  ghost predicate PresenceStep(s: Server, id: Id, s': Server) {
    FlagStep(Inserted(s, id), id, s')
  }

  /** The guards of join_transmission: password, a reachable host, and the sender is who it says. */
  predicate JoinAllowed(tm: TM, a: Action)
    requires a.Join?
  {
    var host := HostName(tm.hostOf, a.transmission);
    && a.verified
    && host != "" && HandleOf(tm, host).Conn? && HandleOf(tm, host) !in a.expired
    && UserOf(tm, a.hdl) == a.user
  }

  function JoinCalls(tm: TM, a: Action): seq<Call>
    requires a.Join?
  {
    if JoinAllowed(tm, a) && Joins(tm, a.user, a.transmission)
    then [Started(a.transmission, HostName(tm.hostOf, a.transmission), a.user)] else []
  }

  /** A join whose password check passed is to a device the database knows, so the id is not empty there. */
  ghost predicate JoinStep(s: Server, a: Action, s': Server)
    requires a.Join?
  {
    && (a.verified ==> Stored(a.transmission) != "")
    && s'.tm == (if JoinAllowed(s.tm, a) then BindGuest(s.tm, a.user, a.transmission) else s.tm)
    && s'.log == s.log + JoinCalls(s.tm, a)
    && TakesIn(s, JoinCalls(s.tm, a), s')
  }

  const MAX_VERSION := 64
  const MAX_PLATFORM := 32

  predicate WellSized(field: Option<string>, max: nat) {
    field.Some? && field.value != "" && |field.value| <= max
  }

  /** client_info: a tracked device tells its version and platform. */
  function VersionOps(tm: TM, a: Action): seq<Op>
    requires a.ReportVersion?
  {
    var u := UserOf(tm, a.hdl);
    if WellSized(a.version, MAX_VERSION) && WellSized(a.platform, MAX_PLATFORM) && u != "" && IsTrackedDevice(u)
    then [ClientInfo(u, Client(a.version.value, a.platform.value))] else []
  }

  ghost predicate VersionStep(s: Server, a: Action, s': Server)
    requires a.ReportVersion?
  {
    s' == s.(history := s'.history) && Recorded(s.history, VersionOps(s.tm, a), s'.history)
  }

  /** A host that leaves ends its transmission; anybody else leaves every transmission it is a guest of. */
  function AfterLeave(tm: TM, user: Id, t: Id): TM {
    if t in tm.hostOf && tm.hostOf[t] == user then DropTransmission(tm, t) else DropGuest(tm, user)
  }

  /** A step that only takes sessions away. */
  ghost predicate EndsSessions(s: Server, ended: seq<Call>, s': Server) {
    && EndsExactly(ended, s.tm.hostOf, Pairs(s.tm.guests), Pairs(s'.tm.guests))
    && s'.log == s.log + ended
    && TakesIn(s, ended, s')
  }

  /** OnClose and OnFail. */
  ghost predicate CloseStep(s: Server, d: Departure, s': Server) {
    && Departs(s.tm, d) && s'.tm == d.after
    && s'.log == s.log + d.calls
    && TakesIn(s, d.calls + [TimedOut(d.hdl, d.LoggedOut())], s')
  }

  /** ExpireInactiveSessions with OnSessionTimeout as its callback. */
  ghost predicate TimeoutStep(s: Server, a: Action, s': Server)
    requires a.Timeouts?
  {
    && Sweep(s.tm, a.trace) && OncePerHandle(a.trace) && Handles(a.trace) == Inactive(s.tm, a.expired, a.now)
    && s'.tm == AfterAll(s.tm, a.trace)
    && s'.log == s.log + SweepCalls(a.trace)
    && TakesIn(s, SweepCalls(a.trace), s')
  }

  /** `ops` end, once each, the sessions of one transmission that are still open in the database. */
  ghost predicate EndsLeftovers(ops: seq<Op>, t: Id, open: Accounting.OpenSessions) {
    && (forall i :: 0 <= i < |ops| ==> ops[i].EndSession? && ops[i].transmission == t && (t, ops[i].guest) in open)
    && (forall i, j :: 0 <= i < j < |ops| ==> ops[i] != ops[j])
    && (forall k :: k in open && k.0 == t ==> exists i :: 0 <= i < |ops| && ops[i].guest == k.1)
  }

  /** HandleDisconnect: end the transmission in memory, then whatever rows the database still has for it. */
  ghost predicate AdminStep(s: Server, a: Action, s': Server)
    requires a.AdminDisconnect?
  {
    && EndsExactly(a.ended, s.tm.hostOf, Pairs(s.tm.guests), Pairs(s'.tm.guests))
    && s'.tm == DropTransmission(s.tm, a.transmission)
    && s'.log == s.log + a.ended && s'.online == s.online && s'.web == s.web
    && EndsLeftovers(a.leftovers, a.transmission, RunOpen(Accounting.OpenOf(Db(s)), OpsOf(a.ended)))
    && Recorded(s.history, OpsOf(a.ended) + a.leftovers, s'.history)
  }

  /** The history up to and including the recovery that starts the new process. */
  function Recovered(s: Server, s': Server): seq<Entry>
    requires |s.history| < |s'.history|
  {
    s'.history[..|s.history| + 1]
  }

  /** The process dies; a new one opens the database, recovers, and rebuilds its sessions. */
  ghost predicate RestartStep(s: Server, a: Action, s': Server)
    requires a.Restart?
  {
    && |s.history| < |s'.history|
    && Recorded(s.history, [Recover], Recovered(s, s'))
    && Restore.Lists(Run(EMPTY, Recovered(s, s')).sessions, a.list, a.groups)
    && Recorded(Recovered(s, s'), OpsOf(Restore.RestoreCalls(a.list)), s'.history)
    && s'.tm == Restore.RestoreAll(a.list) && s'.log == Restore.RestoreCalls(a.list)
    && s'.online == {} && s'.web == {}
  }

  ghost predicate Next(s: Server, a: Action, s': Server) {
    match a
    case Login(_, _, _, _) => LoginStep(s, a, s')
    case Join(_, _, _, _, _) => JoinStep(s, a, s')
    case Leave(user, t, ended) => s'.tm == AfterLeave(s.tm, user, t) && EndsSessions(s, ended, s')
    case Close(d) => CloseStep(s, d, s')
    case Ping(h, now) => s' == s.(tm := Touch(s.tm, h, now))
    case ReportVersion(_, _, _) => VersionStep(s, a, s')
    case Timeouts(_, _, _) => TimeoutStep(s, a, s')
    case PruneRecovered(ended) => s'.tm == Prune(s.tm) && EndsSessions(s, ended, s')
    case AdminDisconnect(_, _, _) => AdminStep(s, a, s')
    case Beat => s' == s.(history := s'.history) && Recorded(s.history, [Heartbeat], s'.history)
    case Restart(_, _) => RestartStep(s, a, s')
  }

  // ---- the invariant ----------------------------------------------------------------------

  /** A transmission carries its host's id. */
  ghost predicate SelfHosting(tm: TM) {
    forall t :: t in tm.hostOf ==> tm.hostOf[t] == t && t != ""
  }

  /** The sessions in memory are the rows of remote_control_sessions, with the same hosts. */
  ghost predicate Mirror(s: Server) {
    InMemory(s.tm) == Accounting.OpenOf(Db(s))
  }

  /** Online in memory, online in the database, and bound to a handle are the same thing. */
  ghost predicate PresenceAgrees(s: Server) {
    PresentAs(s.online, s.web, Accounting.OnlineOf(Db(s)), Connected(s.tm))
  }

  predicate PresentAs(online: set<Id>, web: set<Id>, onlineRows: set<Id>, connected: set<Id>) {
    && online == (set u | u in connected && IsTrackedDevice(u))
    && web == (set u | u in connected && IsWebClient(u))
    && onlineRows == connected
  }

  ghost predicate CallsInTurn(s: Server) {
    Alternates(s.log) && OpenPairs(s.log) == Pairs(s.tm.guests)
  }

  ghost predicate CleanGuests(tm: TM) {
    forall p :: p in Pairs(tm.guests) ==> p.1 != "" && ',' !in p.1
  }

  ghost predicate SelfHostedRows(open: Accounting.OpenSessions) {
    forall k :: k in open ==> open[k] == k.0
  }

  /** What holds whatever clients do. */
  ghost predicate Core(s: Server) {
    && SessionMapOk(s.tm) && SelfHosting(s.tm) && CallsInTurn(s)
    && Sorted(1, s.history) && SelfHostedRows(Accounting.OpenOf(Db(s)))
  }

  ghost predicate Invariant(s: Server) {
    Core(s) && CleanGuests(s.tm) && Mirror(s) && TransmissionFacts.RoutingOk(s.tm) && PresenceAgrees(s)
  }

  /** What the invariant asks of clients: a socket logs in under one id only, its handle is a real connection, and no
      id holds a NUL character; whoever joins has an id without a comma. (An id is empty only if the socket never logged
      in.) */
  ghost predicate Polite(s: Server, a: Action) {
    match a
    case Login(h, accepted, _, _) =>
      h.Conn? && (accepted.Some? ==> UserOf(s.tm, h) in {"", accepted.value} && NoNul(accepted.value))
    case Join(_, user, _, _, _) => user != "" && ',' !in user && NoNul(user)
    case _ => true
  }
}
