/** The accumulated seconds mean what the dashboard says: the reported control, controlled and
    online figures are the integral over time of the number of open sessions (or of being online). */
module Accounting {
  import opened Identity
  import opened Sums
  import opened Ledger

  // ---- reference: who is in a session, read off the operations alone ---------------------

  type OpenSessions = map<SessionKey, Id>  // (transmission, guest) to host

  function StepOpen(open: OpenSessions, op: Op): OpenSessions {
    match op
    case StartSession(t, h, g) => if Opens(t, h, g) then Opened(open, Stored(t), Stored(h), Stored(g)) else open
    case EndSession(t, h, g) => if t == "" || g == "" then open else open - {(Stored(t), Stored(g))}
    case _ => open
  }

  function Opened(open: OpenSessions, t: Id, h: Id, g: Id): OpenSessions {
    if (t, g) in open then open else open[(t, g) := h]
  }

  function OpenFor(open: OpenSessions, role: Role, d: Id): set<SessionKey> {
    set k | k in open && AccountedTo(if role == Controller then k.1 else open[k], d)
  }

  /** Seconds spent in sessions from `from` to `now`: the integral of the number of open ones. */
  function Usage(open: OpenSessions, from: int, entries: seq<Entry>, role: Role, d: Id, now: int): int
    decreases |entries|
  {
    if entries == [] then (now - from) * |OpenFor(open, role, d)|
    else
      (entries[0].at - from) * |OpenFor(open, role, d)|
      + Usage(StepOpen(open, entries[0].op), entries[0].at, entries[1..], role, d, now)
  }

  function StepOnline(on: set<Id>, op: Op): set<Id> {
    match op
    case SetOnline(d) => on + {Stored(d)}
    case SetOffline(d) => on - {Stored(d)}
    case _ => on
  }

  /** Seconds spent online from `from` to `now`. */
  function OnlineUsage(on: set<Id>, from: int, entries: seq<Entry>, d: Id, now: int): int
    decreases |entries|
  {
    if entries == [] then (if d in on then now - from else 0)
    else
      (if d in on then entries[0].at - from else 0)
      + OnlineUsage(StepOnline(on, entries[0].op), entries[0].at, entries[1..], d, now)
  }

  function OpenOf(tb: Tables): OpenSessions {
    map k | k in tb.sessions :: tb.sessions[k].host
  }

  function OnlineOf(tb: Tables): set<Id> {
    set d | d in tb.presence && tb.presence[d].online
  }

  ghost predicate NoRestart(entries: seq<Entry>) {
    forall i :: 0 <= i < |entries| ==> entries[i].op != Recover
  }

  // ---- the tables follow the reference ---------------------------------------------------

  lemma StartOpens(tb: Tables, t: Id, h: Id, g: Id, at: int)
    ensures OpenOf(Start(tb, t, h, g, at)) == Opened(OpenOf(tb), t, h, g)
  {
  }

  lemma EndCloses(tb: Tables, t: Id, h: Id, g: Id, now: int, at: int)
    requires WellFormed(tb, now)
    ensures OpenOf(End(tb, t, h, g, at)) == OpenOf(tb) - {(t, g)}
  {
    hide NoNul;
    assert (t, g) in tb.sessions ==> SessionOk(tb, (t, g), now);
  }

  lemma OpenFollows(tb: Tables, op: Op, now: int, at: int)
    requires WellFormed(tb, now) && op != Recover
    ensures OpenOf(Apply(tb, op, at)) == StepOpen(OpenOf(tb), op)
  {
    hide WellFormed, Start, End, OpenOf, Stored;
    match op
    case StartSession(t, h, g) => StartOpens(tb, Stored(t), Stored(h), Stored(g), at);
    case EndSession(t, h, g) => EndCloses(tb, Stored(t), Stored(h), Stored(g), now, at);
    case _ => SameSessions(tb, Apply(tb, op, at));
  }

  lemma SameSessions(tb: Tables, after: Tables)
    requires tb.sessions == after.sessions
    ensures OpenOf(tb) == OpenOf(after)
  {
  }

  lemma OnlineFollows(tb: Tables, op: Op, at: int)
    requires op != Recover
    ensures OnlineOf(Apply(tb, op, at)) == StepOnline(OnlineOf(tb), op)
  {
    hide Stored, NoNul;
  }

  lemma OpenForAgrees(tb: Tables, role: Role, d: Id, now: int)
    requires WellFormed(tb, now)
    ensures OpenFor(OpenOf(tb), role, d) == SessionsOf(tb.sessions, role, d)
  {
    forall k | k in tb.sessions
      ensures k in OpenFor(OpenOf(tb), role, d) <==> k in SessionsOf(tb.sessions, role, d)
    {
      assert SessionOk(tb, k, now);
      NormalizeMeans(if role == Controller then k.1 else tb.sessions[k].host, d);
    }
  }

  // ---- between operations the figures grow linearly --------------------------------------

  lemma ReportedLinear(tb: Tables, role: Role, d: Id, from: int, now: int)
    requires WellFormed(tb, from) && from <= now
    ensures Reported(tb, role, d, now) == Reported(tb, role, d, from) + (now - from) * |SessionsOf(tb.sessions, role,
        d)|
  {
    hide Sum;
    var ss := SessionsOf(tb.sessions, role, d);
    forall k | k in ss
      ensures Elapsed(tb.sessions, now)(k) == Elapsed(tb.sessions, from)(k) + (now - from)
    {
      assert SessionOk(tb, k, from);
    }
    SumShift(ss, Elapsed(tb.sessions, from), Elapsed(tb.sessions, now), now - from);
  }

  lemma ReportedOnlineLinear(tb: Tables, d: Id, from: int, now: int)
    requires WellFormed(tb, from) && from <= now
    ensures ReportedOnline(tb, d, now) == ReportedOnline(tb, d, from) + (if d in OnlineOf(tb) then now - from else 0)
  {
    assert d in tb.presence ==> RowOk(tb.presence[d], from);
  }

  // ---- an operation never makes a figure jump --------------------------------------------

  lemma LiveInsert(ss: map<SessionKey, SessionRow>, k: SessionKey, row: SessionRow, role: Role, d: Id, now: int)
    requires k !in ss
    ensures Live(ss[k := row], role, d, now)
         == Live(ss, role, d, now) + (if Party(row, role) == d then Max0(now - row.startedAt) else 0)
  {
    hide Sum;
    var after := ss[k := row];
    var rows := SessionsOf(ss, role, d);
    SumCongruent(rows, Elapsed(ss, now), Elapsed(after, now));
    if Party(row, role) == d {
      assert SessionsOf(after, role, d) == rows + {k};
      SumAdd(rows, Elapsed(after, now), k);
    } else {
      assert SessionsOf(after, role, d) == rows;
    }
  }

  lemma LiveDelete(ss: map<SessionKey, SessionRow>, k: SessionKey, role: Role, d: Id, now: int)
    requires k in ss
    ensures Live(ss, role, d, now)
         == Live(ss - {k}, role, d, now) + (if Party(ss[k], role) == d then Max0(now - ss[k].startedAt) else 0)
  {
    hide Sum;
    LiveInsert(ss - {k}, k, ss[k], role, d, now);
    assert (ss - {k})[k := ss[k]] == ss;
  }

  lemma EnsureBanksNothing(p: map<Id, PresenceRow>, e: Id, at: int, role: Role, d: Id)
    ensures Banked(EnsurePresence(p, e, at), role, d) == Banked(p, role, d)
  {
  }

  lemma AddSecondsBanks(p: map<Id, PresenceRow>, credited: Role, e: Id, seconds: int, role: Role, d: Id)
    requires e in p
    ensures Banked(AddSeconds(p, credited, e, seconds), role, d)
         == Banked(p, role, d) + (if role == credited && d == e then seconds else 0)
  {
  }

  /** As seen at any time `view`, a start counts only from its own time on. */
  lemma FigureAfterStart(tb: Tables, t: Id, h: Id, g: Id, role: Role, d: Id, at: int, view: int)
    ensures Reported(tb, role, d, view) <= Reported(Start(tb, t, h, g, at), role, d, view)
    ensures view <= at ==> Reported(Start(tb, t, h, g, at), role, d, view) == Reported(tb, role, d, view)
  {
    hide Sum, Live, AddSeconds, EnsurePresence, Banked;
    if (t, g) !in tb.sessions {
      LiveInsert(tb.sessions, (t, g), NewSession(h, g, at), role, d, view);
    }
    var p := EnsurePresence(tb.presence, Normalize(h), at);
    EnsureBanksNothing(tb.presence, Normalize(h), at, role, d);
    EnsureBanksNothing(p, Normalize(g), at, role, d);
  }

  /** As seen at any time `view`, an end counts the whole session. */
  lemma FigureAfterEnd(tb: Tables, t: Id, h: Id, g: Id, role: Role, d: Id, now: int, at: int, view: int)
    requires WellFormed(tb, now) && view <= at
    ensures Reported(tb, role, d, view) <= Reported(End(tb, t, h, g, at), role, d, view)
    ensures view == at ==> Reported(End(tb, t, h, g, at), role, d, view) == Reported(tb, role, d, view)
  {
    hide Sum, Live, Banked;
    if (t, g) in tb.sessions {
      assert SessionOk(tb, (t, g), now);
      LiveDelete(tb.sessions, (t, g), role, d, view);
      var row := tb.sessions[(t, g)];
      var seconds := Max0(at - row.startedAt);
      var p := AddSeconds(tb.presence, Controller, Normalize(g), seconds);
      AddSecondsBanks(tb.presence, Controller, Normalize(g), seconds, role, d);
      AddSecondsBanks(p, Controlled, Normalize(row.host), seconds, role, d);
    }
  }

  /** The operations that only touch the online columns, the client columns or the heartbeat. */
  lemma QuietForSessions(tb: Tables, op: Op, role: Role, d: Id, at: int, view: int)
    requires !op.StartSession? && !op.EndSession? && !op.Recover?
    ensures Reported(Apply(tb, op, at), role, d, view) == Reported(tb, role, d, view)
  {
    hide Sum, Live, Stored;
    var after := Apply(tb, op, at);
    assert after.sessions == tb.sessions && Banked(after.presence, role, d) == Banked(tb.presence, role, d);
  }

  /** As seen at any time `view`, no operation after it lowers a reported control figure, and none moves it at its own
      time. */
  lemma FigureAfterOp(tb: Tables, op: Op, role: Role, d: Id, now: int, at: int, view: int)
    requires WellFormed(tb, now) && view <= at && op != Recover
    ensures Reported(tb, role, d, view) <= Reported(Apply(tb, op, at), role, d, view)
    ensures view == at ==> Reported(Apply(tb, op, at), role, d, view) == Reported(tb, role, d, view)
  {
    hide WellFormed, Start, End, Reported, Stored;
    match op
    case StartSession(t, h, g) => FigureAfterStart(tb, Stored(t), Stored(h), Stored(g), role, d, at, view);
    case EndSession(t, h, g) => FigureAfterEnd(tb, Stored(t), Stored(h), Stored(g), role, d, now, at, view);
    case _ => QuietForSessions(tb, op, role, d, at, view);
  }

  /** Starting, ending, re-adding, repeating a login: no reported control figure moves. */
  lemma FigureNeverJumps(tb: Tables, op: Op, role: Role, d: Id, now: int, at: int)
    requires WellFormed(tb, now) && op != Recover
    ensures Reported(Apply(tb, op, at), role, d, at) == Reported(tb, role, d, at)
  {
    hide *;
    FigureAfterOp(tb, op, role, d, now, at, at);
  }

  lemma PutOnlineFigure(p: map<Id, PresenceRow>, e: Id, d: Id, now: int, at: int, view: int)
    requires (d in p ==> RowOk(p[d], now)) && view <= at
    ensures OnlineFigure(PutOnline(p, e, at), d, view) == OnlineFigure(p, d, view)
  {
  }

  lemma PutOfflineFigure(p: map<Id, PresenceRow>, e: Id, d: Id, now: int, at: int, view: int)
    requires (d in p ==> RowOk(p[d], now)) && view <= at
    ensures OnlineFigure(p, d, view) <= OnlineFigure(PutOffline(p, e, at), d, view)
    ensures view == at ==> OnlineFigure(PutOffline(p, e, at), d, view) == OnlineFigure(p, d, view)
  {
  }

  /** The operations that leave the online columns alone. */
  lemma QuietForOnline(tb: Tables, op: Op, d: Id, at: int, view: int)
    requires !op.SetOnline? && !op.SetOffline? && !op.Recover?
    ensures ReportedOnline(Apply(tb, op, at), d, view) == ReportedOnline(tb, d, view)
  {
    hide Stored, Normalize, ValidSession, Registered;
  }

  /** As seen at any time `view`, no operation after it lowers the reported online figure, and none moves it at its own
      time. */
  lemma OnlineFigureAfterOp(tb: Tables, op: Op, d: Id, now: int, at: int, view: int)
    requires WellFormed(tb, now) && view <= at && op != Recover
    ensures ReportedOnline(tb, d, view) <= ReportedOnline(Apply(tb, op, at), d, view)
    ensures view == at ==> ReportedOnline(Apply(tb, op, at), d, view) == ReportedOnline(tb, d, view)
  {
    assert d in tb.presence ==> RowOk(tb.presence[d], now);
    hide WellFormed, RowOk, OnlineFigure, PutOnline, PutOffline, Stored;
    match op
    case SetOnline(e) => PutOnlineFigure(tb.presence, Stored(e), d, now, at, view);
    case SetOffline(e) => PutOfflineFigure(tb.presence, Stored(e), d, now, at, view);
    case _ => QuietForOnline(tb, op, d, at, view);
  }

  /** And no reported online figure moves either. */
  lemma OnlineFigureNeverJumps(tb: Tables, op: Op, d: Id, now: int, at: int)
    requires WellFormed(tb, now) && op != Recover
    ensures ReportedOnline(Apply(tb, op, at), d, at) == ReportedOnline(tb, d, at)
  {
    hide *;
    OnlineFigureAfterOp(tb, op, d, now, at, at);
  }

  // ---- exact accounting over every run ---------------------------------------------------

  /** From one operation to the next: linear growth up to it, and no jump at it. */
  lemma AccountingStep(tb: Tables, from: int, e: Entry, role: Role, d: Id)
    requires WellFormed(tb, from) && 0 < from <= e.at && e.op != Recover
    ensures Reported(Apply(tb, e.op, e.at), role, d, e.at)
         == Reported(tb, role, d, from) + (e.at - from) * |OpenFor(OpenOf(tb), role, d)|
    ensures OpenOf(Apply(tb, e.op, e.at)) == StepOpen(OpenOf(tb), e.op)
    ensures WellFormed(Apply(tb, e.op, e.at), e.at)
  {
    hide Apply, Reported, OpenOf, OpenFor, SessionsOf, StepOpen;
    OpenForAgrees(tb, role, d, from);
    ReportedLinear(tb, role, d, from, e.at);
    FigureNeverJumps(tb, e.op, role, d, from, e.at);
    OpenFollows(tb, e.op, from, e.at);
    WellFormedStep(tb, e.op, from, e.at);
  }

  /** Between restarts a device's reported figure rises by exactly the integral of its open sessions. */
  lemma {:induction false} ExactAccounting(tb: Tables, from: int, entries: seq<Entry>, role: Role, d: Id, now: int)
    requires WellFormed(tb, from) && 0 < from && Sorted(from, entries) && NoRestart(entries)
    requires LastTime(from, entries) <= now
    ensures Reported(Run(tb, entries), role, d, now)
         == Reported(tb, role, d, from) + Usage(OpenOf(tb), from, entries, role, d, now)
    decreases |entries|
  {
    hide Apply, Reported, OpenOf, OpenFor, SessionsOf, StepOpen;
    if entries == [] {
      OpenForAgrees(tb, role, d, from);
      ReportedLinear(tb, role, d, from, now);
    } else {
      var e := entries[0];
      AccountingStep(tb, from, e, role, d);
      ExactAccounting(Apply(tb, e.op, e.at), e.at, entries[1..], role, d, now);
    }
  }

  lemma {:induction false} ExactOnlineAccounting(tb: Tables, from: int, entries: seq<Entry>, d: Id, now: int)
    requires WellFormed(tb, from) && 0 < from && Sorted(from, entries) && NoRestart(entries)
    requires LastTime(from, entries) <= now
    ensures ReportedOnline(Run(tb, entries), d, now)
         == ReportedOnline(tb, d, from) + OnlineUsage(OnlineOf(tb), from, entries, d, now)
    decreases |entries|
  {
    hide Apply, ReportedOnline, OnlineOf, StepOnline;
    if entries == [] {
      ReportedOnlineLinear(tb, d, from, now);
    } else {
      var e := entries[0];
      ReportedOnlineLinear(tb, d, from, e.at);
      OnlineFigureNeverJumps(tb, e.op, d, from, e.at);
      OnlineFollows(tb, e.op, e.at);
      WellFormedStep(tb, e.op, from, e.at);
      ExactOnlineAccounting(Apply(tb, e.op, e.at), e.at, entries[1..], d, now);
    }
  }

  // ---- restart ---------------------------------------------------------------------------

  ghost predicate BetweenHeartbeats(entries: seq<Entry>) {
    forall i :: 0 <= i < |entries| ==> entries[i].op != Heartbeat && entries[i].op != Recover
  }

  lemma {:induction false} FiguresAtCutoffGrow(tb: Tables, from: int, entries: seq<Entry>, role: Role, d: Id,
      cutoff: int)
    requires WellFormed(tb, from) && 0 < from && cutoff <= from && Sorted(from, entries) && BetweenHeartbeats(entries)
    ensures Reported(tb, role, d, cutoff) <= Reported(Run(tb, entries), role, d, cutoff)
    ensures ReportedOnline(tb, d, cutoff) <= ReportedOnline(Run(tb, entries), d, cutoff)
    ensures Run(tb, entries).lastSeen == tb.lastSeen
    decreases |entries|
  {
    hide Reported, ReportedOnline;
    if entries != [] {
      var e := entries[0];
      FigureAfterOp(tb, e.op, role, d, from, e.at, cutoff);
      OnlineFigureAfterOp(tb, e.op, d, from, e.at, cutoff);
      WellFormedStep(tb, e.op, from, e.at);
      FiguresAtCutoffGrow(Apply(tb, e.op, e.at), e.at, entries[1..], role, d, cutoff);
    }
  }

  lemma ReportedMonotone(tb: Tables, role: Role, d: Id, a: int, b: int)
    requires a <= b
    ensures Reported(tb, role, d, a) <= Reported(tb, role, d, b)
    ensures ReportedOnline(tb, d, a) <= ReportedOnline(tb, d, b)
  {
    hide Sum;
    SumMonotone(SessionsOf(tb.sessions, role, d), Elapsed(tb.sessions, a), Elapsed(tb.sessions, b));
  }

  /** What a restart does to the figures: nothing is lost that was counted at the cut-off. */
  lemma RecoveredFigures(tb: Tables, role: Role, d: Id, now: int, later: int)
    requires WellFormed(tb, now) && 0 < tb.lastSeen && now <= later
    ensures ReportedOnline(RecoverAt(tb, now), d, later) == ReportedOnline(tb, d, tb.lastSeen)
    ensures KeepsSessions(tb, now) ==> RecoverAt(tb, now).sessions == tb.sessions
    ensures KeepsSessions(tb, now) ==> Reported(RecoverAt(tb, now), role, d, later) == Reported(tb, role, d, later)
    ensures !KeepsSessions(tb, now) ==> Reported(RecoverAt(tb, now), role, d, later) == Reported(tb, role, d,
        tb.lastSeen)
  {
    hide Sum;
    var after := RecoverAt(tb, now);
    assert Cutoff(tb, now) == tb.lastSeen;
    if d in tb.presence {
      assert RowOk(tb.presence[d], now);
    }
    if !KeepsSessions(tb, now) {
      SumZero(SessionsOf(after.sessions, role, d), Elapsed(after.sessions, later));
      if d !in tb.presence {
        forall k | k in tb.sessions
          ensures Party(tb.sessions[k], role) != d
        {
          assert SessionOk(tb, k, now);
        }
        SumZero(SessionsOf(tb.sessions, role, d), Elapsed(tb.sessions, tb.lastSeen));
      }
    }
  }

  /** Crash and restart. `tb` is the state right after the last heartbeat, at time `beat`; `entries` happened
      between it and the crash; the server comes back at `restart`. The online figure lies between what was shown
      at the heartbeat and what was shown at the crash. So do the control figures when the sessions are finalised;
      when they are recovered the figure is the one an uninterrupted server would show. */
  lemma RestartSandwich(tb: Tables, beat: int, entries: seq<Entry>, crash: int, restart: int, role: Role, d: Id,
      later: int)
    requires WellFormed(tb, beat) && 0 < beat && tb.lastSeen == beat
    requires Sorted(beat, entries) && BetweenHeartbeats(entries)
    requires LastTime(beat, entries) <= crash <= restart <= later
    ensures var atCrash := Run(tb, entries);
            var after := RecoverAt(atCrash, restart);
            && ReportedOnline(tb, d, beat) <= ReportedOnline(after, d, later) <= ReportedOnline(atCrash, d, crash)
            && (restart - beat > 120 ==>
                  Reported(tb, role, d, beat) <= Reported(after, role, d, later) <= Reported(atCrash, role, d, crash))
            && (restart - beat <= 120 ==>
                  after.sessions == atCrash.sessions
                  && Reported(after, role, d, later) == Reported(atCrash, role, d, later))
  {
    hide Reported, ReportedOnline, RecoverAt, Sorted, BetweenHeartbeats;
    var atCrash := Run(tb, entries);
    WellFormedRun(tb, beat, entries);
    FiguresAtCutoffGrow(tb, beat, entries, role, d, beat);
    WellFormedLater(atCrash, LastTime(beat, entries), restart);
    RecoveredFigures(atCrash, role, d, restart, later);
    ReportedMonotone(atCrash, role, d, beat, crash);
  }
}
