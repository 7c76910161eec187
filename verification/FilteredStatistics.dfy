/** The totals over a part of the devices, as the statistics page sums them. What they add up to, and when the control
    and the controlled total of such a part agree, is read off the operations alone. */
module FilteredStatistics {
  import opened Identity
  import opened Sums
  import opened Ledger
  import Accounting
  import opened Conservation

  // ---- reference: the sessions the operations describe -----------------------------------

  datatype Running = Running(host: Id, startedAt: int)

  /** The sessions under way and the time of the last heartbeat. */
  datatype Log = Log(running: map<SessionKey, Running>, beat: int)

  const NO_LOG := Log(map[], 0)

  /** Which sessions to count: those whose guest is in the part, whose host is, or one of them alone. */
  datatype Which = GuestIn | HostIn | GuestAlone | HostAlone

  predicate Counts(which: Which, part: set<Id>, guest: Id, host: Id) {
    match which
    case GuestIn => InPart(guest, part)
    case HostIn => InPart(host, part)
    case GuestAlone => InPart(guest, part) && !InPart(host, part)
    case HostAlone => InPart(host, part) && !InPart(guest, part)
  }

  /** The id is accounted to a device of the part. */
  predicate InPart(id: Id, part: set<Id>) {
    exists d :: d in part && AccountedTo(id, d)
  }

  lemma InPartMeans(id: Id, part: set<Id>)
    ensures InPart(id, part) <==> Normalize(id) in part
  {
    hide Normalize, AccountedTo;
    forall d
      ensures Normalize(id) == d <==> AccountedTo(id, d)
    {
      NormalizeMeans(id, d);
    }
  }

  /** A restart keeps the sessions if the last heartbeat is at most 120 s old. */
  predicate Survives(l: Log, at: int) {
    l.beat > 0 && at - Min(l.beat, at) <= RECOVERY_WINDOW
  }

  function Logged(l: Log, t: Id, h: Id, g: Id, at: int): Log {
    if (t, g) in l.running then l else l.(running := l.running[(t, g) := Running(h, at)])
  }

  function StepLog(l: Log, e: Entry): Log {
    match e.op
    case StartSession(t, h, g) =>
      if Opens(t, h, g) then Logged(l, Stored(t), Stored(h), Stored(g), e.at) else l
    case EndSession(t, h, g) => if t == "" || g == "" then l else l.(running := l.running - {(Stored(t), Stored(g))})
    case Heartbeat => l.(beat := e.at)
    case Recover => Log(if Survives(l, e.at) then l.running else map[], e.at)
    case _ => l
  }

  /** The seconds of one session up to a time, if it is to be counted. */
  function Length(l: Log, which: Which, part: set<Id>, now: int): SessionKey -> int {
    k =>
      if k in l.running && Counts(which, part, k.1, l.running[k].host)
      then Max0(now - l.running[k].startedAt) else 0
  }

  ghost function Lengths(l: Log, which: Which, part: set<Id>, now: int): int {
    Sum(l.running.Keys, Length(l, which, part, now))
  }

  /** The seconds of the sessions that an operation ends. A restart that drops the sessions ends them at the last
      heartbeat. */
  ghost function EndedBy(l: Log, e: Entry, which: Which, part: set<Id>): int {
    match e.op
    case EndSession(t, _, g) => if t == "" || g == "" then 0 else Length(l, which, part, e.at)((Stored(t), Stored(g)))
    case Recover => if Survives(l, e.at) then 0 else Lengths(l, which, part, Min(l.beat, e.at))
    case _ => 0
  }

  /** The seconds, up to `now`, of all sessions to be counted. */
  ghost function Seconds(l: Log, entries: seq<Entry>, which: Which, part: set<Id>, now: int): int
    decreases |entries|
  {
    if entries == [] then Lengths(l, which, part, now)
    else EndedBy(l, entries[0], which, part) + Seconds(StepLog(l, entries[0]), entries[1..], which, part, now)
  }

  // ---- the tables follow the reference ----------------------------------------------------

  function LogOf(tb: Tables): Log {
    Log(map k | k in tb.sessions :: Running(tb.sessions[k].host, tb.sessions[k].startedAt), tb.lastSeen)
  }

  function WhichFor(role: Role): Which {
    if role == Controller then GuestIn else HostIn
  }

  lemma LogFollows(tb: Tables, e: Entry, from: int)
    requires WellFormed(tb, from) && 0 < from <= e.at
    ensures LogOf(Apply(tb, e.op, e.at)) == StepLog(LogOf(tb), e)
  {
    hide AddSeconds, EnsurePresence, WellFormed, RecoveredRow, End, Stored, NoNul;
    match e.op
    case EndSession(t, h, g) => EndIsLogged(tb, Stored(t), Stored(h), Stored(g), e.at, from);
    case Recover => SurvivesAgrees(tb, from, e.at);
    case _ =>
  }

  lemma SurvivesAgrees(tb: Tables, from: int, at: int)
    requires WellFormed(tb, from) && 0 < from <= at
    ensures Survives(LogOf(tb), at) <==> KeepsSessions(tb, at)
  {
  }

  lemma EndIsLogged(tb: Tables, t: Id, h: Id, g: Id, at: int, from: int)
    requires WellFormed(tb, from)
    ensures LogOf(End(tb, t, h, g, at)) == LogOf(tb).(running := LogOf(tb).running - {(t, g)})
  {
    hide AddSeconds, WellFormed, Normalize, NoNul;
    if (t, g) in tb.sessions {
      RowIsOk(tb, (t, g), from);
    }
    hide SessionOk;
    assert End(tb, t, h, g, at).sessions == tb.sessions - {(t, g)};
    LogWithout(tb, (t, g));
    assert End(tb, t, h, g, at).lastSeen == tb.lastSeen;
  }

  lemma LogWithout(tb: Tables, k: SessionKey)
    ensures LogOf(tb.(sessions := tb.sessions - {k})).running == LogOf(tb).running - {k}
  {
  }

  lemma SameLength(tb: Tables, from: int, role: Role, part: set<Id>, now: int, k: SessionKey)
    requires WellFormed(tb, from) && k in tb.sessions
    ensures ElapsedIn(tb.sessions, part, role, now)(k) == Length(LogOf(tb), WhichFor(role), part, now)(k)
  {
    hide WellFormed, Normalize, Max0;
    RowIsOk(tb, k, from);
    InPartMeans(if role == Controller then k.1 else tb.sessions[k].host, part);
    hide InPart, AccountedTo;
    assert Counts(WhichFor(role), part, k.1, tb.sessions[k].host) <==> Party(tb.sessions[k], role) in part;
    hide Counts, Party, SessionOk;
  }

  /** What the devices of the part have running is what the reference says. */
  lemma LiveIsLengths(tb: Tables, from: int, role: Role, part: set<Id>, now: int)
    requires WellFormed(tb, from)
    ensures Sum(part, LivePerDevice(tb.sessions, role, now)) == Lengths(LogOf(tb), WhichFor(role), part, now)
  {
    hide Sum, WellFormed, ElapsedIn, Length;
    ExchangeIn(part, tb.sessions, role, now);
    assert LogOf(tb).running.Keys == tb.sessions.Keys;
    forall k | k in tb.sessions
      ensures ElapsedIn(tb.sessions, part, role, now)(k) == Length(LogOf(tb), WhichFor(role), part, now)(k)
    {
      SameLength(tb, from, role, part, now, k);
    }
    SumCongruent(tb.sessions.Keys, ElapsedIn(tb.sessions, part, role, now),
                 Length(LogOf(tb), WhichFor(role), part, now));
  }

  ghost function BankedIn(tb: Tables, role: Role, part: set<Id>): int {
    Sum(part, BankedBy(tb.presence, role))
  }

  lemma AddSecondsIn(p: map<Id, PresenceRow>, credited: Role, e: Id, seconds: int, role: Role, part: set<Id>)
    requires e in p
    ensures Sum(part, BankedBy(AddSeconds(p, credited, e, seconds), role))
         == Sum(part, BankedBy(p, role)) + if role == credited && e in part then seconds else 0
  {
    hide Sum;
    var q := AddSeconds(p, credited, e, seconds);
    forall d
      ensures Banked(q, role, d) == Banked(p, role, d) + if role == credited && d == e then seconds else 0
    {
      Accounting.AddSecondsBanks(p, credited, e, seconds, role, d);
    }
    if e in part {
      SumUpdate(part, BankedBy(p, role), BankedBy(q, role), e);
    } else {
      SumCongruent(part, BankedBy(p, role), BankedBy(q, role));
    }
  }

  lemma EndBanks(tb: Tables, t: Id, h: Id, g: Id, at: int, from: int, role: Role, part: set<Id>)
    requires WellFormed(tb, from)
    ensures BankedIn(End(tb, t, h, g, at), role, part)
         == BankedIn(tb, role, part) + Length(LogOf(tb), WhichFor(role), part, at)((t, g))
  {
    hide Sum, WellFormed, Normalize, LogOf, Length, NoNul;
    if (t, g) in tb.sessions {
      RowIsOk(tb, (t, g), from);
      EndedIsIn(tb, (t, g), at, role, part);
      var row := tb.sessions[(t, g)];
      var seconds := Max0(at - row.startedAt);
      var p := AddSeconds(tb.presence, Controller, Normalize(g), seconds);
      assert p.Keys == tb.presence.Keys;
      AddSecondsIn(tb.presence, Controller, Normalize(g), seconds, role, part);
      AddSecondsIn(p, Controlled, Normalize(row.host), seconds, role, part);
      hide AddSeconds, BankedBy;
      assert End(tb, t, h, g, at).presence == AddSeconds(p, Controlled, Normalize(row.host), seconds);
    } else {
      NothingEnded(tb, (t, g), at, role, part);
    }
  }

  lemma EndedIsIn(tb: Tables, k: SessionKey, at: int, role: Role, part: set<Id>)
    requires k in tb.sessions
    ensures var row := tb.sessions[k];
            Length(LogOf(tb), WhichFor(role), part, at)(k)
            == if Normalize(if role == Controller then k.1 else row.host) in part then Max0(at - row.startedAt) else 0
  {
    hide Normalize, InPart;
    InPartMeans(if role == Controller then k.1 else tb.sessions[k].host, part);
  }

  lemma NothingEnded(tb: Tables, k: SessionKey, at: int, role: Role, part: set<Id>)
    requires k !in tb.sessions
    ensures Length(LogOf(tb), WhichFor(role), part, at)(k) == 0
  {
  }

  lemma RowIsOk(tb: Tables, k: SessionKey, from: int)
    requires WellFormed(tb, from) && k in tb.sessions
    ensures SessionOk(tb, k, from)
  {
  }

  lemma RecoverBanks(tb: Tables, at: int, from: int, role: Role, part: set<Id>)
    requires WellFormed(tb, from) && 0 < from <= at
    ensures BankedIn(RecoverAt(tb, at), role, part)
         == BankedIn(tb, role, part) + EndedBy(LogOf(tb), Entry(Recover, at), WhichFor(role), part)
  {
    hide Sum, Live;
    var after := RecoverAt(tb, at).presence;
    var cutoff := Min(tb.lastSeen, at);
    assert Survives(LogOf(tb), at) <==> KeepsSessions(tb, at);
    if KeepsSessions(tb, at) {
      SumCongruent(part, BankedBy(tb.presence, role), BankedBy(after, role));
    } else {
      forall d | d in part
        ensures Banked(after, role, d) == Banked(tb.presence, role, d) + Live(tb.sessions, role, d, cutoff)
      {
        FinalisedFigure(tb, at, from, role, d);
      }
      SumPlus(part, BankedBy(tb.presence, role), LivePerDevice(tb.sessions, role, cutoff), BankedBy(after, role));
      LiveIsLengths(tb, from, role, part, cutoff);
    }
  }

  lemma FinalisedFigure(tb: Tables, at: int, from: int, role: Role, d: Id)
    requires WellFormed(tb, from) && 0 < from <= at && !KeepsSessions(tb, at)
    ensures Banked(RecoverAt(tb, at).presence, role, d)
         == Banked(tb.presence, role, d) + Live(tb.sessions, role, d, Min(tb.lastSeen, at))
  {
    hide Sum;
    var cutoff := Min(tb.lastSeen, at);
    forall k | k in tb.sessions
      ensures SessionOk(tb, k, from)
    {
    }
    if cutoff <= 0 || d !in tb.presence {
      SumZero(SessionsOf(tb.sessions, role, d), Elapsed(tb.sessions, cutoff));
    }
  }

  /** Every operation banks exactly the seconds of the counted sessions it ends. */
  lemma OpBanks(tb: Tables, e: Entry, from: int, role: Role, part: set<Id>)
    requires WellFormed(tb, from) && 0 < from <= e.at
    ensures BankedIn(Apply(tb, e.op, e.at), role, part)
         == BankedIn(tb, role, part) + EndedBy(LogOf(tb), e, WhichFor(role), part)
  {
    hide Sum, WellFormed, End, RecoverAt, Length, Lengths, LogOf, Stored, NoNul;
    match e.op
    case EndSession(t, h, g) => EndBanks(tb, Stored(t), Stored(h), Stored(g), e.at, from, role, part);
    case Recover => RecoverBanks(tb, e.at, from, role, part);
    case _ =>
      QuietOpBanksNothing(tb, e.op, e.at);
      SumCongruent(part, BankedBy(tb.presence, role), BankedBy(Apply(tb, e.op, e.at).presence, role));
  }

  /** The figure of a part at any moment, restarts included: what was banked and the seconds of the sessions since. */
  lemma {:induction false} PartFigure(tb: Tables, from: int, entries: seq<Entry>, role: Role, part: set<Id>, now: int)
    requires WellFormed(tb, from) && 0 < from && Sorted(from, entries)
    ensures Sum(part, ReportedBy(Run(tb, entries), role, now))
         == BankedIn(tb, role, part) + Seconds(LogOf(tb), entries, WhichFor(role), part, now)
    decreases |entries|
  {
    if entries == [] {
      hide Sum, Live;
      LiveIsLengths(tb, from, role, part, now);
      SumPlus(part, BankedBy(tb.presence, role), LivePerDevice(tb.sessions, role, now), ReportedBy(tb, role, now));
    } else {
      hide Apply, BankedIn, EndedBy, LogOf, StepLog, WellFormed, Sum;
      var e := entries[0];
      OpBanks(tb, e, from, role, part);
      LogFollows(tb, e, from);
      WellFormedStep(tb, e.op, from, e.at);
      PartFigure(Apply(tb, e.op, e.at), e.at, entries[1..], role, part, now);
    }
  }

  // ---- when control and controlled agree --------------------------------------------------

  lemma LengthsSplit(l: Log, part: set<Id>, now: int)
    ensures Lengths(l, GuestIn, part, now) + Lengths(l, HostAlone, part, now)
         == Lengths(l, HostIn, part, now) + Lengths(l, GuestAlone, part, now)
  {
    hide Sum;
    var guests, hostsAlone := Length(l, GuestIn, part, now), Length(l, HostAlone, part, now);
    var hosts, guestsAlone := Length(l, HostIn, part, now), Length(l, GuestAlone, part, now);
    var both: SessionKey -> int := k => guests(k) + hostsAlone(k);
    SumPlus(l.running.Keys, guests, hostsAlone, both);
    SumPlus(l.running.Keys, hosts, guestsAlone, both);
  }

  lemma {:induction false} SecondsSplit(l: Log, entries: seq<Entry>, part: set<Id>, now: int)
    ensures Seconds(l, entries, GuestIn, part, now) + Seconds(l, entries, HostAlone, part, now)
         == Seconds(l, entries, HostIn, part, now) + Seconds(l, entries, GuestAlone, part, now)
    decreases |entries|
  {
    hide Lengths, StepLog;
    if entries == [] {
      LengthsSplit(l, part, now);
    } else {
      LengthsSplit(l, part, Min(l.beat, entries[0].at));
      SecondsSplit(StepLog(l, entries[0]), entries[1..], part, now);
    }
  }

  /** The statistics over a part of the devices show the same control and controlled seconds if and only if the sessions
      that have their guest alone in the part lasted as long, taken together, as those that have their host alone. */
  lemma FilteredBalance(from: int, entries: seq<Entry>, part: set<Id>, now: int)
    requires 0 < from && Sorted(from, entries)
    ensures var tb := Run(EMPTY, entries);
            && Sum(part, ReportedBy(tb, Controller, now)) == Seconds(NO_LOG, entries, GuestIn, part, now)
            && Sum(part, ReportedBy(tb, Controlled, now)) == Seconds(NO_LOG, entries, HostIn, part, now)
            && (Sum(part, ReportedBy(tb, Controller, now)) == Sum(part, ReportedBy(tb, Controlled, now))
                <==> Seconds(NO_LOG, entries, GuestAlone, part, now) == Seconds(NO_LOG, entries, HostAlone, part, now))
  {
    hide Sum, Run, Seconds;
    assert LogOf(EMPTY) == NO_LOG;
    SumZero(part, BankedBy(EMPTY.presence, Controller));
    SumZero(part, BankedBy(EMPTY.presence, Controlled));
    PartFigure(EMPTY, from, entries, Controller, part, now);
    PartFigure(EMPTY, from, entries, Controlled, part, now);
    SecondsSplit(NO_LOG, entries, part, now);
  }

  /** Every session is started with both parties in the part or with neither. */
  predicate StaysInside(entries: seq<Entry>, part: set<Id>) {
    forall i :: 0 <= i < |entries| && entries[i].op.StartSession? ==>
      (InPart(Stored(entries[i].op.guest), part) <==> InPart(Stored(entries[i].op.host), part))
  }

  predicate RunsInside(l: Log, part: set<Id>) {
    forall k :: k in l.running ==> (InPart(k.1, part) <==> InPart(l.running[k].host, part))
  }

  lemma NoneAlone(l: Log, which: Which, part: set<Id>, now: int)
    requires RunsInside(l, part) && (which == GuestAlone || which == HostAlone)
    ensures Lengths(l, which, part, now) == 0 && forall k :: Length(l, which, part, now)(k) == 0
  {
    hide Sum;
    SumZero(l.running.Keys, Length(l, which, part, now));
  }

  lemma {:induction false} InsideCountsNothing(l: Log, entries: seq<Entry>, which: Which, part: set<Id>, now: int)
    requires RunsInside(l, part) && StaysInside(entries, part) && (which == GuestAlone || which == HostAlone)
    ensures Seconds(l, entries, which, part, now) == 0
    decreases |entries|
  {
    hide Lengths, Length, Stored, NoNul, InPart;
    if entries == [] {
      NoneAlone(l, which, part, now);
    } else {
      NoneAlone(l, which, part, Min(l.beat, entries[0].at));
      NoneAlone(l, which, part, entries[0].at);
      InsideCountsNothing(StepLog(l, entries[0]), entries[1..], which, part, now);
    }
  }

  /** So they agree, at every moment, when no session crosses the border of the part. */
  lemma FilteredBalanceInside(from: int, entries: seq<Entry>, part: set<Id>, now: int)
    requires 0 < from && Sorted(from, entries) && StaysInside(entries, part)
    ensures var tb := Run(EMPTY, entries);
            Sum(part, ReportedBy(tb, Controller, now)) == Sum(part, ReportedBy(tb, Controlled, now))
  {
    hide Sum, Run, Seconds;
    FilteredBalance(from, entries, part, now);
    InsideCountsNothing(NO_LOG, entries, GuestAlone, part, now);
    InsideCountsNothing(NO_LOG, entries, HostAlone, part, now);
  }

  /** The devices the statistics page counts: not the browsers' ids and not the controllers'. */
  function TrackedRows(p: map<Id, PresenceRow>): set<Id> {
    set d | d in p && IsTrackedDevice(d)
  }

  /** A browser controlling a device for ten seconds: from then on the page shows 0 and 10. */
  lemma FilteredStatisticsUnbalanced(h: Id, g: Id, now: int)
    requires h != "" && IsTrackedDevice(h) && NoNul(h) && IsWebClient(g) && NoNul(g)
    ensures var entries := [Entry(StartSession(h, h, g), 1), Entry(EndSession(h, h, g), 11)];
            var tb := Run(EMPTY, entries);
            && Sorted(1, entries)
            && Sum(TrackedRows(tb.presence), ReportedBy(tb, Controller, now)) == 0
            && Sum(TrackedRows(tb.presence), ReportedBy(tb, Controlled, now)) == 10
  {
    hide Sum, Stored, NoNul;
    var e0, e1 := Entry(StartSession(h, h, g), 1), Entry(EndSession(h, h, g), 11);
    BrowsersAreNotDevices(h, g);
    hide IsTrackedDevice, IsWebClient;
    var tb1 := Apply(EMPTY, e0.op, e0.at);
    assert tb1.presence == map[h := BlankRow(1)][g := BlankRow(1)];
    assert tb1.sessions == map[(h, g) := NewSession(h, g, 1)];
    var tb2 := Apply(tb1, e1.op, e1.at);
    assert tb2.presence.Keys == {h, g};
    assert tb2.presence[g].totalControl == 10 && tb2.presence[h].totalControlled == 10;
    assert tb2.sessions == map[];
    assert [e0, e1][1..] == [e1];
    assert Run(tb1, [e1]) == tb2 by {
      assert [e1][1..] == [];
    }
    OnlyBanked(tb2, now);
    var counted := TrackedRows(tb2.presence);
    assert counted == {h} == {} + {h};
    SumAdd({}, ReportedBy(tb2, Controller, now), h);
    SumAdd({}, ReportedBy(tb2, Controlled, now), h);
    SumZero({}, ReportedBy(tb2, Controller, now));
    SumZero({}, ReportedBy(tb2, Controlled, now));
  }

  lemma BrowsersAreNotDevices(h: Id, g: Id)
    requires IsTrackedDevice(h) && IsWebClient(g)
    ensures h != g && !IsTrackedDevice(g) && Normalize(h) == h && Normalize(g) == g && g != ""
  {
    assert g[0] == "web-"[0] != "C-"[0];
  }

  lemma OnlyBanked(tb: Tables, now: int)
    requires tb.sessions == map[]
    ensures forall role, d :: Reported(tb, role, d, now) == Banked(tb.presence, role, d)
  {
    hide Sum;
    forall role, d
      ensures Live(tb.sessions, role, d, now) == 0
    {
      SumZero(SessionsOf(tb.sessions, role, d), Elapsed(tb.sessions, now));
    }
  }
}
