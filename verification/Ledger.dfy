/** The persistent tables of the signalling server and what each statement does to them.
    Times are whole seconds; every statement reads the clock once. Operations name ids as their callers do; the tables
    hold what of them reaches the database (`Stored`). */
module Ledger {
  import opened Identity
  import Sums

  /** A row of device_presence. */
  datatype PresenceRow = PresenceRow(online: bool, updatedAt: int, onlineSince: int,
                                     totalOnline: int, totalControl: int, totalControlled: int, client: Client)

  /** The columns client_version and client_platform. */
  datatype Client = Client(version: string, platform: string)

  const NO_CLIENT := Client("", "")

  /** A row of remote_control_sessions, whose primary key is (transmission, guest). */
  datatype SessionRow = SessionRow(host: Id, normalizedGuest: Id, normalizedHost: Id, startedAt: int)

  type SessionKey = (Id, Id)

  datatype Tables = Tables(presence: map<Id, PresenceRow>,
                           sessions: map<SessionKey, SessionRow>,
                           lastSeen: int)

  /** One persistent operation. `ClientInfo` stores what the client said it is and changes no time. */
  datatype Op =
    | SetOnline(device: Id)
    | SetOffline(device: Id)
    | ClientInfo(device: Id, client: Client)
    | StartSession(transmission: Id, host: Id, guest: Id)
    | EndSession(transmission: Id, host: Id, guest: Id)
    | Heartbeat
    | Recover

  datatype Entry = Entry(op: Op, at: int)

  const RECOVERY_WINDOW := 120

  const EMPTY := Tables(map[], map[], 0)

  function BlankRow(at: int): PresenceRow {
    PresenceRow(false, at, 0, 0, 0, 0, NO_CLIENT)
  }

  function EnsurePresence(p: map<Id, PresenceRow>, d: Id, at: int): map<Id, PresenceRow> {
    if d in p then p else p[d := BlankRow(at)]
  }

  // ---- presence -------------------------------------------------------------------------

  function OnlineRow(r: PresenceRow, at: int): PresenceRow {
    r.(online := true, updatedAt := at,
       onlineSince := if r.online && r.onlineSince > 0 then r.onlineSince else at)
  }

  function CurrentOnline(r: PresenceRow, now: int): nat {
    if r.online && r.onlineSince > 0 then Max0(now - r.onlineSince) else 0
  }

  function OfflineRow(r: PresenceRow, at: int): PresenceRow {
    r.(totalOnline := r.totalOnline + CurrentOnline(r, at), online := false, updatedAt := at, onlineSince := 0)
  }

  function PutOnline(p: map<Id, PresenceRow>, d: Id, at: int): map<Id, PresenceRow> {
    p[d := if d in p then OnlineRow(p[d], at) else PresenceRow(true, at, at, 0, 0, 0, NO_CLIENT)]
  }

  function PutOffline(p: map<Id, PresenceRow>, d: Id, at: int): map<Id, PresenceRow> {
    p[d := if d in p then OfflineRow(p[d], at) else BlankRow(at)]
  }

  function StoredInfo(c: Client): Client {
    Client(Stored(c.version), Stored(c.platform))
  }

  function StoreClient(p: map<Id, PresenceRow>, d: Id, c: Client, at: int): map<Id, PresenceRow> {
    p[d := (if d in p then p[d] else BlankRow(at)).(client := c)]
  }

  // ---- sessions -------------------------------------------------------------------------

  /** The test on the ids of a new session, made on the whole ids. */
  predicate ValidSession(t: Id, h: Id, g: Id) {
    t != "" && h != "" && g != "" && h != g
  }

  /** Something of the transmission's and the host's id reaches the database. A transmission that is joined is a device
      the database knows, under an id it made itself, so this holds of every session. */
  predicate Registered(t: Id, h: Id) {
    Stored(t) != "" && Stored(h) != ""
  }

  predicate Opens(t: Id, h: Id, g: Id) {
    ValidSession(t, h, g) && Registered(t, h)
  }

  function NewSession(h: Id, g: Id, at: int): SessionRow {
    SessionRow(h, Normalize(g), Normalize(h), at)
  }

  /** The statements of a start, with the ids as they reach the database. */
  function Start(tb: Tables, t: Id, h: Id, g: Id, at: int): Tables {
    tb.(presence := EnsurePresence(EnsurePresence(tb.presence, Normalize(h), at), Normalize(g), at),
        sessions := if (t, g) in tb.sessions then tb.sessions else tb.sessions[(t, g) := NewSession(h, g, at)])
  }

  /** UPDATE of one running total; a device without a row is left alone. */
  function AddSeconds(p: map<Id, PresenceRow>, role: Role, d: Id, seconds: int): map<Id, PresenceRow> {
    if d in p then p[d := Credit(p[d], role, seconds)] else p
  }

  /** The statements of an end, with the ids as they reach the database. */
  function End(tb: Tables, t: Id, h: Id, g: Id, at: int): Tables {
    if (t, g) !in tb.sessions then tb
    else
      var row := tb.sessions[(t, g)];
      var host := if row.host == "" then h else row.host;
      if host == "" then tb
      else
        var seconds := Max0(at - row.startedAt);
        tb.(presence := AddSeconds(AddSeconds(tb.presence, Controller, Normalize(g), seconds),
                                   Controlled, Normalize(host), seconds),
            sessions := tb.sessions - {(t, g)})
  }

  // ---- the two sides of a session -------------------------------------------------------

  datatype Role = Controller | Controlled

  function Party(row: SessionRow, role: Role): Id {
    if role == Controller then row.normalizedGuest else row.normalizedHost
  }

  function Total(r: PresenceRow, role: Role): int {
    if role == Controller then r.totalControl else r.totalControlled
  }

  function Credit(r: PresenceRow, role: Role, seconds: int): PresenceRow {
    if role == Controller then r.(totalControl := r.totalControl + seconds)
    else r.(totalControlled := r.totalControlled + seconds)
  }

  /** WHERE normalized_guest_id (or normalized_host_id) = device. */
  function SessionsOf(ss: map<SessionKey, SessionRow>, role: Role, d: Id): set<SessionKey> {
    set k | k in ss && Party(ss[k], role) == d
  }

  function Elapsed(ss: map<SessionKey, SessionRow>, now: int): SessionKey -> int {
    k => if k in ss then Max0(now - ss[k].startedAt) else 0
  }

  /** SUM(MAX(0, now - started_at)) over the device's sessions in one role. */
  ghost function Live(ss: map<SessionKey, SessionRow>, role: Role, d: Id, now: int): int {
    Sums.Sum(SessionsOf(ss, role, d), Elapsed(ss, now))
  }

  // ---- what the dashboard reports -------------------------------------------------------

  function Banked(p: map<Id, PresenceRow>, role: Role, d: Id): int {
    if d in p then Total(p[d], role) else 0
  }

  /** total_control_seconds or total_controlled_seconds plus the running sessions. */
  ghost function Reported(tb: Tables, role: Role, d: Id, now: int): int {
    Banked(tb.presence, role, d) + Live(tb.sessions, role, d, now)
  }

  /** total_online_seconds plus the running online interval. */
  function ReportedOnline(tb: Tables, d: Id, now: int): int {
    OnlineFigure(tb.presence, d, now)
  }

  function OnlineFigure(p: map<Id, PresenceRow>, d: Id, now: int): int {
    if d in p then p[d].totalOnline + CurrentOnline(p[d], now) else 0
  }

  // ---- restart --------------------------------------------------------------------------

  function Cutoff(tb: Tables, now: int): int {
    if tb.lastSeen > 0 then Min(tb.lastSeen, now) else 0
  }

  predicate KeepsSessions(tb: Tables, now: int) {
    Cutoff(tb, now) > 0 && now - Cutoff(tb, now) <= RECOVERY_WINDOW
  }

  /** The bulk UPDATE that credits a device's stale sessions up to the cut-off. */
  ghost function FinalisedRow(tb: Tables, d: Id, cutoff: int): PresenceRow
    requires d in tb.presence
  {
    Credit(Credit(tb.presence[d], Controller, Live(tb.sessions, Controller, d, cutoff)),
           Controlled, Live(tb.sessions, Controlled, d, cutoff))
  }

  /** The start-up reset of a row that was left online by the previous process. */
  function ResetRow(r: PresenceRow, cutoff: int, now: int): PresenceRow {
    if !r.online then r
    else
      var seconds := if cutoff > 0 && r.onlineSince > 0 then Max0(cutoff - r.onlineSince) else 0;
      r.(totalOnline := r.totalOnline + seconds, online := false,
         updatedAt := if cutoff > 0 then cutoff else now, onlineSince := 0)
  }

  ghost function RecoveredRow(tb: Tables, d: Id, now: int): PresenceRow
    requires d in tb.presence
  {
    var cutoff := Cutoff(tb, now);
    var credited := if !KeepsSessions(tb, now) && cutoff > 0 then FinalisedRow(tb, d, cutoff) else tb.presence[d];
    ResetRow(credited, cutoff, now)
  }

  /** The recovery part of InitDB, ending in the first heartbeat. */
  ghost function RecoverAt(tb: Tables, now: int): Tables {
    Tables(map d | d in tb.presence :: RecoveredRow(tb, d, now),
           if KeepsSessions(tb, now) then tb.sessions else map[], now)
  }

  // ---- runs -----------------------------------------------------------------------------

  ghost function Apply(tb: Tables, op: Op, at: int): Tables {
    match op
    case SetOnline(d) => tb.(presence := PutOnline(tb.presence, Stored(d), at))
    case SetOffline(d) => tb.(presence := PutOffline(tb.presence, Stored(d), at))
    case ClientInfo(d, c) =>
      if d == "" then tb else tb.(presence := StoreClient(tb.presence, Stored(d), StoredInfo(c), at))
    case StartSession(t, h, g) => if Opens(t, h, g) then Start(tb, Stored(t), Stored(h), Stored(g), at) else tb
    case EndSession(t, h, g) => if t == "" || g == "" then tb else End(tb, Stored(t), Stored(h), Stored(g), at)
    case Heartbeat => tb.(lastSeen := at)
    case Recover => RecoverAt(tb, at)
  }

  ghost function Run(tb: Tables, entries: seq<Entry>): Tables
    decreases |entries|
  {
    if entries == [] then tb
    else Run(Apply(tb, entries[0].op, entries[0].at), entries[1..])
  }

  /** The clock never runs backwards. */
  ghost predicate Sorted(from: int, entries: seq<Entry>) {
    && (forall i :: 0 <= i < |entries| ==> from <= entries[i].at)
    && (forall i, j :: 0 <= i < j < |entries| ==> entries[i].at <= entries[j].at)
  }

  function LastTime(from: int, entries: seq<Entry>): int {
    if entries == [] then from else entries[|entries| - 1].at
  }

  lemma {:induction false} RunAppend(tb: Tables, a: seq<Entry>, b: seq<Entry>)
    ensures Run(tb, a + b) == Run(Run(tb, a), b)
    decreases |a|
  {
    if a == [] {
      assert a + b == b;
    } else {
      assert (a + b)[1..] == a[1..] + b;
      RunAppend(Apply(tb, a[0].op, a[0].at), a[1..], b);
    }
  }

  // ---- the state invariant of the tables ------------------------------------------------

  predicate SessionOk(tb: Tables, k: SessionKey, now: int)
    requires k in tb.sessions
  {
    var row := tb.sessions[k];
    && k.0 != "" && row.host != "" && NoNul(k.0) && NoNul(row.host) && NoNul(k.1)
    && row.normalizedGuest == Normalize(k.1) && row.normalizedHost == Normalize(row.host)
    && row.normalizedGuest in tb.presence && row.normalizedHost in tb.presence
    && 0 < row.startedAt <= now
  }

  predicate RowOk(r: PresenceRow, now: int) {
    if r.online then 0 < r.onlineSince <= now else r.onlineSince == 0
  }

  ghost predicate WellFormed(tb: Tables, now: int) {
    && (forall k :: k in tb.sessions ==> SessionOk(tb, k, now))
    && (forall d :: d in tb.presence ==> NoNul(d) && RowOk(tb.presence[d], now))
    && 0 <= tb.lastSeen <= now
  }

  /** A session stays in order while its row and the rows of its parties stay. */
  lemma SessionStays(tb: Tables, after: Tables, k: SessionKey, from: int, at: int)
    requires WellFormed(tb, from) && from <= at && k in tb.sessions
    requires k in after.sessions && after.sessions[k] == tb.sessions[k] && tb.presence.Keys <= after.presence.Keys
    ensures SessionOk(after, k, at)
  {
    assert SessionOk(tb, k, from);
    hide WellFormed, Normalize, NoNul;
  }

  lemma RowStays(tb: Tables, d: Id, from: int, at: int)
    requires WellFormed(tb, from) && from <= at && d in tb.presence
    ensures NoNul(d) && RowOk(tb.presence[d], at)
  {
    assert RowOk(tb.presence[d], from);
  }

  lemma WellFormedRecover(tb: Tables, from: int, at: int)
    requires WellFormed(tb, from) && 0 < at && from <= at
    ensures WellFormed(RecoverAt(tb, at), at)
  {
    var after := RecoverAt(tb, at);
    assert after.presence.Keys == tb.presence.Keys;
    forall k | k in after.sessions
      ensures SessionOk(after, k, at)
    {
      SessionStays(tb, after, k, from, at);
    }
    forall d | d in after.presence
      ensures NoNul(d) && RowOk(after.presence[d], at)
    {
      RowStays(tb, d, from, at);
    }
  }

  lemma StartedIsOk(tb: Tables, t: Id, h: Id, g: Id, at: int)
    requires t != "" && h != "" && NoNul(t) && NoNul(h) && NoNul(g) && (t, g) !in tb.sessions && 0 < at
    ensures (t, g) in Start(tb, t, h, g, at).sessions && SessionOk(Start(tb, t, h, g, at), (t, g), at)
  {
    hide Normalize, NoNul;
  }

  lemma EnsuredRow(p: map<Id, PresenceRow>, d: Id, e: Id, at: int)
    ensures d in EnsurePresence(p, e, at) ==> EnsurePresence(p, e, at)[d] == if d in p then p[d] else BlankRow(at)
    ensures d in EnsurePresence(p, e, at) ==> d in p || d == e
    ensures p.Keys <= EnsurePresence(p, e, at).Keys
  {
  }

  lemma WellFormedStart(tb: Tables, t: Id, h: Id, g: Id, from: int, at: int)
    requires WellFormed(tb, from) && 0 < at && from <= at
    requires t != "" && h != "" && NoNul(t) && NoNul(h) && NoNul(g)
    ensures WellFormed(Start(tb, t, h, g, at), at)
  {
    var after := Start(tb, t, h, g, at);
    var p := EnsurePresence(tb.presence, Normalize(h), at);
    EnsuredRow(tb.presence, "", Normalize(h), at);
    EnsuredRow(p, "", Normalize(g), at);
    StoredNormalize(h);
    StoredNormalize(g);
    if (t, g) !in tb.sessions {
      StartedIsOk(tb, t, h, g, at);
    }
    hide EnsurePresence, SessionOk, Normalize, NoNul, Stored;
    forall k | k in after.sessions
      ensures SessionOk(after, k, at)
    {
      if k in tb.sessions {
        SessionStays(tb, after, k, from, at);
      }
    }
    forall d | d in after.presence
      ensures NoNul(d) && RowOk(after.presence[d], at)
    {
      EnsuredRow(tb.presence, d, Normalize(h), at);
      EnsuredRow(p, d, Normalize(g), at);
      if d in tb.presence {
        RowStays(tb, d, from, at);
      }
    }
  }

  lemma AddedRow(p: map<Id, PresenceRow>, role: Role, e: Id, seconds: int, d: Id, at: int)
    requires d in p && RowOk(p[d], at)
    ensures d in AddSeconds(p, role, e, seconds) && RowOk(AddSeconds(p, role, e, seconds)[d], at)
    ensures AddSeconds(p, role, e, seconds).Keys == p.Keys
  {
  }

  lemma WellFormedEnd(tb: Tables, t: Id, h: Id, g: Id, from: int, at: int)
    requires WellFormed(tb, from) && 0 < at && from <= at
    ensures WellFormed(End(tb, t, h, g, at), at)
  {
    var after := End(tb, t, h, g, at);
    assert tb.presence.Keys == after.presence.Keys;
    hide SessionOk, Normalize, RowOk, AddSeconds, NoNul;
    forall k | k in after.sessions
      ensures SessionOk(after, k, at)
    {
      SessionStays(tb, after, k, from, at);
    }
    forall d | d in after.presence
      ensures NoNul(d) && RowOk(after.presence[d], at)
    {
      RowStays(tb, d, from, at);
      if after.presence != tb.presence {
        var row := tb.sessions[(t, g)];
        var seconds := Max0(at - row.startedAt);
        var p := AddSeconds(tb.presence, Controller, Normalize(g), seconds);
        AddedRow(tb.presence, Controller, Normalize(g), seconds, d, at);
        AddedRow(p, Controlled, Normalize(if row.host == "" then h else row.host), seconds, d, at);
      }
    }
  }

  lemma WellFormedPresence(tb: Tables, op: Op, from: int, at: int)
    requires WellFormed(tb, from) && 0 < at && from <= at
    requires !op.StartSession? && !op.EndSession? && !op.Recover?
    ensures WellFormed(Apply(tb, op, at), at)
  {
    var after := Apply(tb, op, at);
    assert tb.presence.Keys <= after.presence.Keys && after.sessions == tb.sessions;
    hide SessionOk, NoNul, Stored;
    forall k | k in after.sessions
      ensures SessionOk(after, k, at)
    {
      SessionStays(tb, after, k, from, at);
    }
    forall d | d in after.presence
      ensures NoNul(d) && RowOk(after.presence[d], at)
    {
      if d in tb.presence {
        RowStays(tb, d, from, at);
      }
    }
  }

  lemma WellFormedStep(tb: Tables, op: Op, from: int, at: int)
    requires WellFormed(tb, from) && 0 < at && from <= at
    ensures WellFormed(Apply(tb, op, at), at)
  {
    match op
    case StartSession(t, h, g) =>
      hide SessionOk, RowOk, NoNul, Stored, Start;
      WellFormedLater(tb, from, at);
      if Opens(t, h, g) {
        WellFormedStart(tb, Stored(t), Stored(h), Stored(g), from, at);
      }
    case EndSession(t, h, g) =>
      hide SessionOk, RowOk, NoNul, Stored, End;
      WellFormedLater(tb, from, at);
      WellFormedEnd(tb, Stored(t), Stored(h), Stored(g), from, at);
    case Recover => WellFormedRecover(tb, from, at);
    case _ => WellFormedPresence(tb, op, from, at);
  }

  lemma WellFormedLater(tb: Tables, a: int, b: int)
    requires WellFormed(tb, a) && a <= b
    ensures WellFormed(tb, b)
  {
    forall k | k in tb.sessions
      ensures SessionOk(tb, k, b)
    {
      SessionStays(tb, tb, k, a, b);
    }
    forall d | d in tb.presence
      ensures NoNul(d) && RowOk(tb.presence[d], b)
    {
      RowStays(tb, d, a, b);
    }
  }

  /** Every run of persistent operations, restarts included, keeps the tables consistent. */
  lemma {:induction false} WellFormedRun(tb: Tables, from: int, entries: seq<Entry>)
    requires WellFormed(tb, from) && 0 < from && Sorted(from, entries)
    ensures WellFormed(Run(tb, entries), LastTime(from, entries))
    decreases |entries|
  {
    hide Apply, WellFormed;
    if entries != [] {
      WellFormedStep(tb, entries[0].op, from, entries[0].at);
      WellFormedRun(Apply(tb, entries[0].op, entries[0].at), entries[0].at, entries[1..]);
    }
  }

  // ---- client information -----------------------------------------------------------------

  function StoredClient(tb: Tables, d: Id): Client {
    if d in tb.presence then tb.presence[d].client else NO_CLIENT
  }

  /** What the client of a device said last, among the operations. */
  function LatestClient(first: Client, entries: seq<Entry>, d: Id): Client
    decreases |entries|
  {
    if entries == [] then first
    else
      LatestClient(if Says(entries[0].op, d) then StoredInfo(entries[0].op.client) else first, entries[1..], d)
  }

  /** The client of the device says what it is. */
  predicate Says(op: Op, d: Id) {
    op.ClientInfo? && op.device != "" && Stored(op.device) == d
  }

  lemma ClientStep(tb: Tables, op: Op, at: int, d: Id)
    ensures StoredClient(Apply(tb, op, at), d)
         == if Says(op, d) then StoredInfo(op.client) else StoredClient(tb, d)
  {
    hide Live, Sums.Sum, Stored, NoNul, Normalize;
  }

  /** The stored client information is what the client said last: no other operation, restarts included, touches it. */
  lemma {:induction false} ClientIsLatest(tb: Tables, entries: seq<Entry>, d: Id)
    ensures StoredClient(Run(tb, entries), d) == LatestClient(StoredClient(tb, d), entries, d)
    decreases |entries|
  {
    hide Apply, StoredClient, Stored;
    if entries != [] {
      ClientStep(tb, entries[0].op, entries[0].at, d);
      ClientIsLatest(Apply(tb, entries[0].op, entries[0].at), entries[1..], d);
    }
  }
}
