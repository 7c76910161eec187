/** Every second somebody spends controlling is a second somebody is controlled: over all presence
    rows the two running totals agree in every state a run can reach, restarts included. */
module Conservation {
  import opened Identity
  import opened Sums
  import opened Ledger
  import Accounting

  function BankedBy(p: map<Id, PresenceRow>, role: Role): Id -> int {
    d => Banked(p, role, d)
  }

  /** SUM(total_control_seconds) or SUM(total_controlled_seconds) over all presence rows. */
  ghost function GrandTotal(p: map<Id, PresenceRow>, role: Role): int {
    Sum(p.Keys, BankedBy(p, role))
  }

  lemma SameGrandTotal(p: map<Id, PresenceRow>, q: map<Id, PresenceRow>, role: Role)
    requires p.Keys <= q.Keys && forall d :: d in q ==> Banked(q, role, d) == Banked(p, role, d)
    ensures GrandTotal(q, role) == GrandTotal(p, role)
  {
    hide Sum;
    SumCongruent(q.Keys, BankedBy(q, role), BankedBy(p, role));
    SumExtend(p.Keys, q.Keys, BankedBy(p, role));
  }

  lemma AddSecondsGrandTotal(p: map<Id, PresenceRow>, credited: Role, e: Id, seconds: int, role: Role)
    requires e in p
    ensures GrandTotal(AddSeconds(p, credited, e, seconds), role)
         == GrandTotal(p, role) + (if role == credited then seconds else 0)
  {
    hide Sum;
    var q := AddSeconds(p, credited, e, seconds);
    assert q.Keys == p.Keys;
    SumUpdate(p.Keys, BankedBy(p, role), BankedBy(q, role), e);
  }

  // ---- the bulk finalisation: exchange the two sums ---------------------------------------

  ghost function LivePerDevice(ss: map<SessionKey, SessionRow>, role: Role, now: int): Id -> int {
    d => Live(ss, role, d, now)
  }

  /** A session's seconds, if its party in the role is one of the devices. */
  function ElapsedIn(ss: map<SessionKey, SessionRow>, devices: set<Id>, role: Role, now: int): SessionKey -> int {
    k => if k in ss && Party(ss[k], role) in devices then Max0(now - ss[k].startedAt) else 0
  }

  /** Summing per device and then per session is summing per session over the sessions whose party is a device. */
  lemma {:induction false} ExchangeIn(devices: set<Id>, ss: map<SessionKey, SessionRow>, role: Role, now: int)
    ensures Sum(devices, LivePerDevice(ss, role, now)) == Sum(ss.Keys, ElapsedIn(ss, devices, role, now))
    decreases |ss|
  {
    hide Sum;
    var perDevice := LivePerDevice(ss, role, now);
    if ss.Keys == {} {
      forall d | d in devices
        ensures perDevice(d) == 0
      {
        SumZero(SessionsOf(ss, role, d), Elapsed(ss, now));
      }
      SumZero(devices, perDevice);
      SumZero(ss.Keys, ElapsedIn(ss, devices, role, now));
    } else {
      hide Live;
      var k :| k in ss;
      var rest := ss - {k};
      PerDeviceUpdate(devices, ss, k, role, now);
      ExchangeIn(devices, rest, role, now);
      SumRemove(ss.Keys, ElapsedIn(ss, devices, role, now), k);
      assert rest.Keys == ss.Keys - {k};
      SumCongruent(rest.Keys, ElapsedIn(rest, devices, role, now), ElapsedIn(ss, devices, role, now));
    }
  }

  /** So it is the sum over all sessions, if each session's party is a device. */
  lemma Exchange(devices: set<Id>, ss: map<SessionKey, SessionRow>, role: Role, now: int)
    requires forall k :: k in ss ==> Party(ss[k], role) in devices
    ensures Sum(devices, LivePerDevice(ss, role, now)) == Sum(ss.Keys, Elapsed(ss, now))
  {
    hide Sum;
    ExchangeIn(devices, ss, role, now);
    SumCongruent(ss.Keys, ElapsedIn(ss, devices, role, now), Elapsed(ss, now));
  }

  lemma PerDeviceUpdate(devices: set<Id>, ss: map<SessionKey, SessionRow>, k: SessionKey, role: Role, now: int)
    requires k in ss
    ensures Sum(devices, LivePerDevice(ss, role, now))
         == Sum(devices, LivePerDevice(ss - {k}, role, now)) + ElapsedIn(ss, devices, role, now)(k)
  {
    hide Sum, Live;
    var before, after := LivePerDevice(ss - {k}, role, now), LivePerDevice(ss, role, now);
    forall d | d in devices
      ensures after(d) == before(d) + (if d == Party(ss[k], role) then Max0(now - ss[k].startedAt) else 0)
    {
      Accounting.LiveDelete(ss, k, role, d, now);
    }
    if Party(ss[k], role) in devices {
      SumUpdate(devices, before, after, Party(ss[k], role));
    } else {
      SumCongruent(devices, before, after);
    }
  }

  lemma RecoverGrandTotal(tb: Tables, from: int, at: int, role: Role)
    requires WellFormed(tb, from)
    ensures GrandTotal(RecoverAt(tb, at).presence, role)
         == GrandTotal(tb.presence, role)
            + (if KeepsSessions(tb, at) || Cutoff(tb, at) <= 0 then 0
               else Sum(tb.sessions.Keys, Elapsed(tb.sessions, Cutoff(tb, at))))
  {
    hide Sum;
    var after := RecoverAt(tb, at).presence;
    assert after.Keys == tb.presence.Keys;
    if KeepsSessions(tb, at) || Cutoff(tb, at) <= 0 {
      SameGrandTotal(tb.presence, after, role);
    } else {
      var cutoff := Cutoff(tb, at);
      forall k | k in tb.sessions
        ensures Party(tb.sessions[k], role) in tb.presence.Keys
      {
        assert SessionOk(tb, k, from);
      }
      Exchange(tb.presence.Keys, tb.sessions, role, cutoff);
      SumPlus(tb.presence.Keys, BankedBy(tb.presence, role), LivePerDevice(tb.sessions, role, cutoff),
              BankedBy(after, role));
    }
  }

  // ---- one operation ----------------------------------------------------------------------

  ghost predicate Balanced(tb: Tables) {
    GrandTotal(tb.presence, Controller) == GrandTotal(tb.presence, Controlled)
  }

  lemma EndGrandTotals(tb: Tables, t: Id, h: Id, g: Id, from: int, at: int)
    requires WellFormed(tb, from) && Balanced(tb)
    ensures Balanced(End(tb, t, h, g, at))
  {
    hide GrandTotal;
    if (t, g) in tb.sessions {
      assert SessionOk(tb, (t, g), from);
      var row := tb.sessions[(t, g)];
      var seconds := Max0(at - row.startedAt);
      var p := AddSeconds(tb.presence, Controller, Normalize(g), seconds);
      forall role: Role
        ensures GrandTotal(End(tb, t, h, g, at).presence, role) == GrandTotal(tb.presence, role) + seconds
      {
        AddSecondsGrandTotal(tb.presence, Controller, Normalize(g), seconds, role);
        AddSecondsGrandTotal(p, Controlled, Normalize(row.host), seconds, role);
      }
    }
  }

  lemma BalancedStep(tb: Tables, op: Op, from: int, at: int)
    requires WellFormed(tb, from) && Balanced(tb)
    ensures Balanced(Apply(tb, op, at))
  {
    hide GrandTotal, WellFormed, End, RecoverAt, Stored, NoNul;
    match op
    case EndSession(t, h, g) => EndGrandTotals(tb, Stored(t), Stored(h), Stored(g), from, at);
    case Recover =>
      RecoverGrandTotal(tb, from, at, Controller);
      RecoverGrandTotal(tb, from, at, Controlled);
    case _ =>
      QuietOpBanksNothing(tb, op, at);
      SameGrandTotal(tb.presence, Apply(tb, op, at).presence, Controller);
      SameGrandTotal(tb.presence, Apply(tb, op, at).presence, Controlled);
  }

  /** Only the end of a session and a restart bank control seconds. */
  lemma QuietOpBanksNothing(tb: Tables, op: Op, at: int)
    requires !op.EndSession? && !op.Recover?
    ensures tb.presence.Keys <= Apply(tb, op, at).presence.Keys
    ensures forall role, d :: Banked(Apply(tb, op, at).presence, role, d) == Banked(tb.presence, role, d)
  {
    hide Stored, NoNul, Normalize, ValidSession, Registered;
  }

  /** Conservation over every run of persistent operations, restarts included. */
  lemma {:induction false} BalancedRun(tb: Tables, from: int, entries: seq<Entry>)
    requires WellFormed(tb, from) && 0 < from && Sorted(from, entries) && Balanced(tb)
    ensures Balanced(Run(tb, entries))
    decreases |entries|
  {
    hide Apply, Balanced;
    if entries != [] {
      BalancedStep(tb, entries[0].op, from, entries[0].at);
      WellFormedStep(tb, entries[0].op, from, entries[0].at);
      BalancedRun(Apply(tb, entries[0].op, entries[0].at), entries[0].at, entries[1..]);
    }
  }

  ghost function ReportedBy(tb: Tables, role: Role, now: int): Id -> int {
    d => Reported(tb, role, d, now)
  }

  /** From an empty database on: the control seconds shown over all devices equal the controlled
      seconds shown, at whatever moment the dashboard asks. */
  lemma SecondsAreConserved(from: int, entries: seq<Entry>, now: int)
    requires 0 < from && Sorted(from, entries)
    ensures var tb := Run(EMPTY, entries);
            && GrandTotal(tb.presence, Controller) == GrandTotal(tb.presence, Controlled)
            && Sum(tb.presence.Keys, ReportedBy(tb, Controller, now))
            == Sum(tb.presence.Keys, ReportedBy(tb, Controlled, now))
  {
    hide Sum;
    SumZero(EMPTY.presence.Keys, BankedBy(EMPTY.presence, Controller));
    SumZero(EMPTY.presence.Keys, BankedBy(EMPTY.presence, Controlled));
    BalancedRun(EMPTY, from, entries);
    WellFormedRun(EMPTY, from, entries);
    var tb := Run(EMPTY, entries);
    forall role: Role
      ensures Sum(tb.presence.Keys, ReportedBy(tb, role, now))
           == GrandTotal(tb.presence, role) + Sum(tb.sessions.Keys, Elapsed(tb.sessions, now))
    {
      forall k | k in tb.sessions
        ensures Party(tb.sessions[k], role) in tb.presence.Keys
      {
        assert SessionOk(tb, k, LastTime(from, entries));
      }
      Exchange(tb.presence.Keys, tb.sessions, role, now);
      SumPlus(tb.presence.Keys, BankedBy(tb.presence, role), LivePerDevice(tb.sessions, role, now),
              ReportedBy(tb, role, now));
    }
  }
}
