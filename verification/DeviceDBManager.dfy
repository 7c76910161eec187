/** DeviceDBManager: the object that owns the tables. Its ghost history lists every persistent operation
    since the database file was created, so whatever is proved of runs holds of its tables. */
module DeviceDB {
  import opened Identity
  import opened Orders
  import Sums
  import opened Ledger
  import opened TextSearch
  import opened Restore

  const FIRST_SECOND := 1

  lemma RunOne(past: seq<Entry>, e: Entry)
    requires Sorted(FIRST_SECOND, past) && LastTime(FIRST_SECOND, past) <= e.at
    requires WellFormed(Run(EMPTY, past), LastTime(FIRST_SECOND, past))
    ensures Run(EMPTY, past + [e]) == Apply(Run(EMPTY, past), e.op, e.at)
    ensures Sorted(FIRST_SECOND, past + [e]) && LastTime(FIRST_SECOND, past + [e]) == e.at
    ensures WellFormed(Run(EMPTY, past + [e]), e.at)
  {
    hide Apply, WellFormed;
    RunAppend(EMPTY, past, [e]);
    WellFormedStep(Run(EMPTY, past), e.op, LastTime(FIRST_SECOND, past), e.at);
    assert [e][1..] == [];
  }

  /** The tables are what the operations so far made of an empty database. */
  ghost predicate IsReplay(tb: Tables, past: seq<Entry>, clock: int) {
    && Sorted(FIRST_SECOND, past) && LastTime(FIRST_SECOND, past) <= clock
    && tb == Run(EMPTY, past) && WellFormed(tb, LastTime(FIRST_SECOND, past))
  }

  lemma Extends(tb: Tables, past: seq<Entry>, clock: int, op: Op, at: int)
    requires IsReplay(tb, past, clock) && clock <= at
    ensures IsReplay(Apply(tb, op, at), past + [Entry(op, at)], at)
  {
    hide Apply, WellFormed, Sorted;
    RunOne(past, Entry(op, at));
  }

  /** The ids in the rows are ids as the database holds them. */
  ghost predicate RowsAreStored(rows: map<SessionKey, SessionRow>) {
    forall k :: k in rows ==> k.0 != "" && rows[k].host != "" && NoNul(k.0) && NoNul(rows[k].host) && NoNul(k.1)
  }

  lemma StoredIds(tb: Tables, past: seq<Entry>, clock: int)
    requires IsReplay(tb, past, clock)
    ensures RowsAreStored(tb.sessions)
  {
    hide NoNul;
    forall k | k in tb.sessions
      ensures SessionOk(tb, k, LastTime(FIRST_SECOND, past))
    {
    }
  }

  /** WHERE transmission_id LIKE ... OR host_id LIKE ... OR guest_id LIKE ...; an empty search matches every row. */
  predicate RowMatches(k: SessionKey, row: SessionRow, search: string) {
    Finds(k.0, search) || Finds(row.host, search) || Finds(k.1, search)
  }

  function Matching(ss: map<SessionKey, SessionRow>, search: string): map<SessionKey, SessionRow> {
    map k | k in ss && RowMatches(k, ss[k], search) :: ss[k]
  }

  function RowsOf(ss: map<SessionKey, SessionRow>, t: Id): set<SessionKey> {
    set k | k in ss && k.0 == t
  }

  /** The rows that ending each of the listed sessions deletes: EndRemoteControlSession refuses the empty guest. */
  function Endable(keys: set<SessionKey>): set<SessionKey> {
    set k | k in keys && k.1 != ""
  }

  lemma EndableNone(ss: map<SessionKey, SessionRow>)
    ensures ss - Endable({}) == ss && ss - Endable(Elements([])) == ss
  {
  }

  lemma StillThere(ss: map<SessionKey, SessionRow>, ended: set<SessionKey>, k: SessionKey)
    requires k in ss && k !in ended
    ensures k in ss - Endable(ended)
  {
  }

  lemma EndableMore(keys: set<SessionKey>, k: SessionKey)
    requires k !in keys
    ensures Endable(keys + {k}) == Endable(keys) + if k.1 != "" then {k} else {}
  {
  }

  lemma SelfMatch(text: string)
    ensures Finds(text, "") && (NoNul(text) ==> Finds(text, text))
  {
    assert text[0..0 + |text|] == text;
    assert FoundAt(text, text, 0) && FoundAt(text, "", 0);
  }

  lemma EmptySearchMatchesAll(ss: map<SessionKey, SessionRow>)
    ensures Matching(ss, "") == ss
  {
    forall k | k in ss
      ensures RowMatches(k, ss[k], "")
    {
      SelfMatch(k.0);
    }
  }

  /** The search's WHERE clause: one of the three columns matches the pattern that is bound; without a search there is
      no such clause. */
  ghost predicate Searched(t: Id, h: Id, g: Id, search: string) {
    var pattern := Stored("%" + Escape(search) + "%");
    search == "" || Like(pattern, t) || Like(pattern, h) || Like(pattern, g)
  }

  lemma RowMatchesMeans(k: SessionKey, row: SessionRow, search: string)
    ensures RowMatches(k, row, search) <==> Searched(k.0, row.host, k.1, search)
  {
    hide Finds, Stored, Escape, Like;
    SearchFinds(search, k.0);
    SearchFinds(search, row.host);
    SearchFinds(search, k.1);
    SelfMatch(k.0);
  }

  /** What the listing lists: a transmission and host are an entry exactly when the search matches one of their rows,
      and the guests that were concatenated for it are those of the rows that match. */
  lemma ListedIff(ss: map<SessionKey, SessionRow>, search: string, list: seq<SessionInfo>, groups: seq<seq<Id>>,
      t: Id, h: Id)
    requires Lists(Matching(ss, search), list, groups)
    ensures (exists i :: 0 <= i < |list| && list[i].transmission == t && list[i].host == h)
       <==> exists g :: (t, g) in ss && ss[(t, g)].host == h && Searched(t, h, g, search)
    ensures forall i, g :: 0 <= i < |list| && list[i].transmission == t && list[i].host == h ==>
              (g in groups[i] <==> (t, g) in ss && ss[(t, g)].host == h && Searched(t, h, g, search))
  {
    hide RowMatches, Searched, SplitIds, Join;
    var rows := Matching(ss, search);
    forall g
      ensures InGroup(rows, t, h, g) <==> (t, g) in ss && ss[(t, g)].host == h && Searched(t, h, g, search)
    {
      if (t, g) in ss {
        RowMatchesMeans((t, g), ss[(t, g)], search);
      }
    }
    if i :| 0 <= i < |list| && list[i].transmission == t && list[i].host == h {
      assert groups[i][0] in groups[i];
      assert InGroup(rows, t, h, groups[i][0]);
    }
    if g :| InGroup(rows, t, h, g) {
      assert (t, g) in rows;
    }
  }

  /** The listing with the groups of `todo` still to come. */
  ghost predicate ListsSoFar(rows: map<SessionKey, SessionRow>, list: seq<SessionInfo>, groups: seq<seq<Id>>,
      todo: set<SessionKey>) {
    && |list| == |groups|
    && (forall i :: 0 <= i < |list| ==>
          && list[i].guests == SplitIds(Join(groups[i]))
          && groups[i] != []
          && forall g :: g in groups[i] <==> InGroup(rows, list[i].transmission, list[i].host, g))
    && (forall k :: k in rows && k !in todo ==> exists i :: 0 <= i < |list| && IsGroup(list[i], k.0, rows[k].host))
  }

  /** No entry of the listing is for a group of `todo`, and no two are for the same group. */
  predicate OnePerGroup(rows: map<SessionKey, SessionRow>, list: seq<SessionInfo>, todo: set<SessionKey>) {
    && (forall i, k :: 0 <= i < |list| && k in todo && k in rows ==> !IsGroup(list[i], k.0, rows[k].host))
    && (forall i, j :: 0 <= i < j < |list| ==> !IsGroup(list[i], list[j].transmission, list[j].host))
  }

  lemma OnePerGroupMore(rows: map<SessionKey, SessionRow>, list: seq<SessionInfo>, todo: set<SessionKey>,
      k: SessionKey, guests: seq<Id>)
    requires OnePerGroup(rows, list, todo) && k in todo && k in rows
    ensures var group := set x | x in rows && x.0 == k.0 && rows[x].host == rows[k].host;
            OnePerGroup(rows, list + [SessionInfo(k.0, rows[k].host, guests)], todo - group)
  {
  }

  lemma ListsMore(rows: map<SessionKey, SessionRow>, list: seq<SessionInfo>, groups: seq<seq<Id>>,
      todo: set<SessionKey>, k: SessionKey, ids: seq<Id>)
    requires ListsSoFar(rows, list, groups, todo) && k in todo && k in rows && ids != []
    requires forall g :: g in ids <==> InGroup(rows, k.0, rows[k].host, g)
    ensures var group := set x | x in rows && x.0 == k.0 && rows[x].host == rows[k].host;
            ListsSoFar(rows, list + [SessionInfo(k.0, rows[k].host, SplitIds(Join(ids)))], groups + [ids], todo - group)
  {
    hide SplitIds, Join;
    var more := list + [SessionInfo(k.0, rows[k].host, SplitIds(Join(ids)))];
    forall x | x in rows && (x !in todo || (x.0 == k.0 && rows[x].host == rows[k].host))
      ensures exists i :: 0 <= i < |more| && IsGroup(more[i], x.0, rows[x].host)
    {
      if x.0 == k.0 && rows[x].host == rows[k].host {
        assert IsGroup(more[|list|], x.0, rows[x].host);
      } else {
        var i :| 0 <= i < |list| && IsGroup(list[i], x.0, rows[x].host);
        assert IsGroup(more[i], x.0, rows[x].host);
      }
    }
  }

  /** The history grew by one end of session for each listed key, in that order. */
  ghost predicate EndEntries(before: seq<Entry>, after: seq<Entry>, t: Id, ended: seq<SessionKey>) {
    && |after| == |before| + |ended| && after[..|before|] == before
    && forall i :: |before| <= i < |after| ==>
         var op := after[i].op;
         op.EndSession? && op.transmission == t && op.guest == ended[i - |before|].1
  }

  lemma EndEntriesGrow(before: seq<Entry>, mid: seq<Entry>, t: Id, ended: seq<SessionKey>, e: Entry, k: SessionKey)
    requires EndEntries(before, mid, t, ended)
    requires e.op.EndSession? && e.op.transmission == t && e.op.guest == k.1
    ensures EndEntries(before, mid + [e], t, ended + [k])
  {
    assert (mid + [e])[..|before|] == mid[..|before|];
  }

  class DeviceDBManager {
    var presence: map<Id, PresenceRow>
    var sessions: map<SessionKey, SessionRow>
    var lastSeen: int
    var clock: int
    ghost var history: seq<Entry>

    ghost function Contents(): Tables
      reads this
    {
      Tables(presence, sessions, lastSeen)
    }

    ghost predicate Valid()
      reads this
    {
      FIRST_SECOND <= clock && IsReplay(Contents(), history, clock)
    }

    /** One persistent operation was carried out at the current second. */
    twostate predicate Performed(op: Op)
      reads this
    {
      && old(clock) <= clock
      && history == old(history) + [Entry(op, clock)]
      && Contents() == Apply(old(Contents()), op, clock)
    }

    /** Opens the database file left behind by the operations `past` and recovers from the crash. */
    constructor InitDB(disk: Tables, ghost past: seq<Entry>, now: int)
      requires FIRST_SECOND <= now && IsReplay(disk, past, now)
      ensures Valid() && now <= clock
      ensures history == past + [Entry(Recover, clock)]
      ensures Contents() == RecoverAt(disk, clock)
    {
      presence, sessions, lastSeen, clock, history := disk.presence, disk.sessions, disk.lastSeen, now, past;
      new;
      Restore();
    }

    /** The recovery statements of InitDB, one row at a time. */
    method Restore()
      requires Valid()
      modifies this
      ensures Valid() && Performed(Recover)
    {
      hide Run, WellFormed, IsReplay, Live, Credit, ResetRow;
      var now := ReadClock();
      var cutoff := Cutoff(Tables(presence, sessions, lastSeen), now);
      var keep := KeepsSessions(Tables(presence, sessions, lastSeen), now);
      var rows: map<Id, PresenceRow> := map[];
      var todo := presence.Keys;
      while todo != {}
        invariant todo <= presence.Keys && rows.Keys == presence.Keys - todo
        invariant forall d :: d in rows ==> rows[d] == RecoveredRow(Contents(), d, now)
        invariant presence == old(presence) && sessions == old(sessions) && lastSeen == old(lastSeen)
        invariant history == old(history) && clock == now
      {
        var d :| d in todo;
        var row := presence[d];
        if !keep && cutoff > 0 {
          var control := SumLive(Controller, d, cutoff);
          var controlled := SumLive(Controlled, d, cutoff);
          row := Credit(Credit(row, Controller, control), Controlled, controlled);
        }
        rows := rows[d := ResetRow(row, cutoff, now)];
        todo := todo - {d};
      }
      ghost var before := Contents();
      presence := rows;
      if !keep {
        sessions := map[];
      }
      lastSeen := now;
      history := history + [Entry(Recover, now)];
      assert Contents().presence == RecoverAt(before, now).presence;
      Extends(before, old(history), old(clock), Recover, now);
    }

    /** SELECT SUM(MAX(0, now - started_at)) over one device's sessions. */
    method SumLive(role: Role, d: Id, now: int) returns (total: int)
      ensures total == Live(sessions, role, d, now)
    {
      hide Sums.Sum;
      total := 0;
      ghost var rows := SessionsOf(sessions, role, d);
      var todo := sessions.Keys;
      assert rows * todo == rows;
      while todo != {}
        invariant todo <= sessions.Keys
        invariant total + Sums.Sum(rows * todo, Elapsed(sessions, now)) == Sums.Sum(rows, Elapsed(sessions, now))
      {
        var k :| k in todo;
        if Party(sessions[k], role) == d {
          total := total + Max0(now - sessions[k].startedAt);
          Sums.SumRemove(rows * todo, Elapsed(sessions, now), k);
          assert rows * todo - {k} == rows * (todo - {k});
        } else {
          assert rows * todo == rows * (todo - {k});
        }
        todo := todo - {k};
      }
      assert rows * todo == {};
      Sums.SumZero(rows * todo, Elapsed(sessions, now));
    }

    /** The wall clock in seconds; it may have advanced since the last reading. */
    method ReadClock() returns (now: int)
      modifies this`clock
      ensures now == clock && old(clock) <= clock
    {
      var elapsed: int :| 0 <= elapsed;
      clock := clock + elapsed;
      now := clock;
    }

    method RecordRuntimeHeartbeat()
      requires Valid()
      modifies this
      ensures Valid() && Performed(Heartbeat)
    {
      var now := ReadClock();
      lastSeen := now;
      history := history + [Entry(Heartbeat, now)];
      Extends(old(Contents()), old(history), old(clock), Heartbeat, now);
    }

    method SetDeviceOnline(d: Id, online: bool)
      requires Valid()
      modifies this
      ensures Valid() && Performed(if online then SetOnline(d) else SetOffline(d))
    {
      var now := ReadClock();
      if online {
        presence := PutOnline(presence, Stored(d), now);
      } else {
        presence := PutOffline(presence, Stored(d), now);
      }
      ghost var op := if online then SetOnline(d) else SetOffline(d);
      history := history + [Entry(op, now)];
      Extends(old(Contents()), old(history), old(clock), op, now);
    }

    method UpdateDeviceClientInfo(d: Id, client: Client) returns (ok: bool)
      requires Valid()
      modifies this
      ensures Valid() && Performed(ClientInfo(d, client)) && ok == (d != "")
    {
      var now := ReadClock();
      if d != "" {
        presence := StoreClient(presence, Stored(d), StoredInfo(client), now);
      }
      ok := d != "";
      history := history + [Entry(ClientInfo(d, client), now)];
      Extends(old(Contents()), old(history), old(clock), ClientInfo(d, client), now);
    }

    method StartRemoteControlSession(t: Id, h: Id, g: Id) returns (ok: bool)
      requires Valid() && (ValidSession(t, h, g) ==> Registered(t, h))
      modifies this
      ensures Valid() && Performed(StartSession(t, h, g)) && ok == ValidSession(t, h, g)
    {
      hide Run, WellFormed, IsReplay, EnsurePresence, Normalize, Stored, NoNul;
      var now := ReadClock();
      ok := !(t == "" || h == "" || g == "" || h == g);
      if ok {
        var normalizedHost, normalizedGuest := Stored(Normalize(h)), Stored(Normalize(g));
        StoredNormalize(h);
        StoredNormalize(g);
        presence := EnsurePresence(presence, normalizedHost, now);
        presence := EnsurePresence(presence, normalizedGuest, now);
        if (Stored(t), Stored(g)) !in sessions {
          sessions := sessions[(Stored(t), Stored(g)) := SessionRow(Stored(h), normalizedGuest, normalizedHost, now)];
        }
      }
      history := history + [Entry(StartSession(t, h, g), now)];
      Extends(old(Contents()), old(history), old(clock), StartSession(t, h, g), now);
    }

    method EndRemoteControlSession(t: Id, h: Id, g: Id) returns (ok: bool)
      requires Valid()
      modifies this
      ensures Valid() && Performed(EndSession(t, h, g))
      ensures ok == (t != "" && g != "")
      ensures sessions == if ok then old(sessions) - {(Stored(t), Stored(g))} else old(sessions)
    {
      hide Run, WellFormed, IsReplay, AddSeconds, Normalize, Stored, NoNul;
      var now := ReadClock();
      ok := t != "" && g != "";
      var k := (Stored(t), Stored(g));
      if ok && k in sessions {
        StoredIds(old(Contents()), old(history), old(clock));
        var row := sessions[k];
        var host := if row.host == "" then h else row.host;
        var seconds := Max0(now - row.startedAt);
        StoredNormalize(g);
        StoredNormalize(host);
        presence := AddSeconds(presence, Controller, Stored(Normalize(g)), seconds);
        presence := AddSeconds(presence, Controlled, Stored(Normalize(host)), seconds);
        sessions := sessions - {k};
      }
      history := history + [Entry(EndSession(t, h, g), now)];
      Extends(old(Contents()), old(history), old(clock), EndSession(t, h, g), now);
    }

    /** Ends every session of one transmission. */
    method EndRemoteControlTransmission(t: Id) returns (ok: bool, ghost ended: seq<SessionKey>)
      requires Valid()
      modifies this
      ensures Valid() && old(clock) <= clock
      ensures ok == (t != "" && forall k :: k in RowsOf(old(sessions), Stored(t)) ==> k.1 != "")
      ensures EndEntries(old(history), history, t, ended) && |old(history)| <= |history|
      ensures Distinct(ended) && Elements(ended) == (if t == "" then {} else RowsOf(old(sessions), Stored(t)))
      ensures sessions == old(sessions) - Endable(Elements(ended))
    {
      hide Run, Apply, WellFormed, IsReplay, Stored, NoNul, Endable;
      EndableNone(sessions);
      ok := t != "";
      ended := [];
      if !ok {
        return;
      }
      var todo := RowsOf(sessions, Stored(t));
      ghost var all := todo;
      while todo != {}
        invariant Valid() && old(clock) <= clock && todo <= all
        invariant ok == forall k :: k in all - todo ==> k.1 != ""
        invariant EndEntries(old(history), history, t, ended)
        invariant Distinct(ended) && Elements(ended) == all - todo
        invariant sessions == old(sessions) - Endable(all - todo)
      {
        var k :| k in todo;
        StillThere(old(sessions), all - todo, k);
        StoredIds(Contents(), history, clock);
        ghost var mid := history;
        var done := EndRemoteControlSession(t, sessions[k].host, k.1);
        assert k == (Stored(t), k.1) && k !in ended;
        assert Elements(ended + [k]) == Elements(ended) + {k};
        EndEntriesGrow(old(history), mid, t, ended, history[|mid|], k);
        EndableMore(all - todo, k);
        assert all - (todo - {k}) == all - todo + {k};
        ended := ended + [k];
        todo := todo - {k};
        ok := done && ok;
      }
      assert all - todo == all;
    }

    /** SELECT transmission_id, host_id, GROUP_CONCAT(guest_id) ... GROUP BY transmission_id, host_id. */
    method ListRemoteControlSessions(search: string) returns (list: seq<SessionInfo>, ghost groups: seq<seq<Id>>)
      ensures Lists(Matching(sessions, search), list, groups)
      ensures forall i, j :: 0 <= i < j < |list| ==> !IsGroup(list[i], list[j].transmission, list[j].host)
    {
      list, groups := [], [];
      var rows := Matching(sessions, search);
      var todo := rows.Keys;
      while todo != {}
        invariant todo <= rows.Keys && ListsSoFar(rows, list, groups, todo) && OnePerGroup(rows, list, todo)
      {
        hide ListsSoFar, OnePerGroup, Matching, SplitIds, Join, SortUnique;
        var k :| k in todo;
        var group := set x | x in rows && x.0 == k.0 && rows[x].host == rows[k].host;
        assert k in group;
        var ids := GroupConcat(rows, k.0, rows[k].host, group);
        var guests := SplitCommaSeparatedIds(Join(ids));
        ListsMore(rows, list, groups, todo, k, ids);
        OnePerGroupMore(rows, list, todo, k, guests);
        list := list + [SessionInfo(k.0, rows[k].host, guests)];
        groups := groups + [ids];
        todo := todo - group;
      }
    }

    method GroupConcat(rows: map<SessionKey, SessionRow>, t: Id, h: Id, group: set<SessionKey>) returns (ids: seq<Id>)
      requires group == set x | x in rows && x.0 == t && rows[x].host == h
      ensures forall g :: g in ids <==> InGroup(rows, t, h, g)
      ensures group != {} ==> ids != []
    {
      ids := [];
      var rest := group;
      while rest != {}
        invariant rest <= group && (rest != group ==> ids != [])
        invariant forall g :: g in ids <==> (t, g) in group - rest
      {
        var x :| x in rest;
        assert x == (t, x.1);
        ids := ids + [x.1];
        rest := rest - {x};
      }
      assert group - rest == group;
    }

    method CountActiveRemoteControlConnections() returns (count: nat)
      ensures count == |sessions|
    {
      count := |sessions.Keys|;
      assert sessions.Keys == set k | k in sessions;
    }

    /** The total_control_seconds (or controlled) column of the dashboard for one device. */
    method ReportedSeconds(role: Role, d: Id) returns (seconds: int)
      requires Valid()
      modifies this`clock
      ensures Valid() && old(clock) <= clock
      ensures seconds == Reported(Contents(), role, d, clock)
    {
      var now := ReadClock();
      var live := SumLive(role, d, now);
      seconds := Banked(presence, role, d) + live;
    }
  }
}
