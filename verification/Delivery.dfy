/** How callbacks reach the database: each call becomes the persistent operation its handler performs. */
module Delivery {
  import opened Identity
  import Orders
  import opened Ledger
  import opened Accounting
  import opened Transmission

  function OpsOfCall(c: Call): seq<Op> {
    match c
    case Started(t, h, g) => [StartSession(t, h, g)]
    case Ended(t, h, g) => [EndSession(t, h, g)]
    case TimedOut(_, u) => if u == "" then [] else [SetOffline(u)]
  }

  function OpsOf(calls: seq<Call>): seq<Op> {
    if calls == [] then [] else OpsOf(calls[..|calls| - 1]) + OpsOfCall(calls[|calls| - 1])
  }

  /** `after` extends the history `before` by these operations, at times that never run backwards. */
  ghost predicate Recorded(before: seq<Entry>, ops: seq<Op>, after: seq<Entry>) {
    && |after| == |before| + |ops| && before == after[..|before|]
    && (forall i :: 0 <= i < |ops| ==> after[|before| + i].op == ops[i])
    && Sorted(1, after)
  }

  /** The sessions that stay open and the devices that stay online, read off the operations alone. */
  function RunOpen(open: OpenSessions, ops: seq<Op>): OpenSessions {
    if ops == [] then open else StepOpen(RunOpen(open, ops[..|ops| - 1]), ops[|ops| - 1])
  }

  function RunOnline(on: set<Id>, ops: seq<Op>): set<Id> {
    if ops == [] then on else StepOnline(RunOnline(on, ops[..|ops| - 1]), ops[|ops| - 1])
  }

  lemma RunOpenOne(open: OpenSessions, ops: seq<Op>, op: Op)
    ensures RunOpen(open, ops + [op]) == StepOpen(RunOpen(open, ops), op)
  {
    assert (ops + [op])[..|ops|] == ops;
  }

  lemma RunOnlineOne(on: set<Id>, ops: seq<Op>, op: Op)
    ensures RunOnline(on, ops + [op]) == StepOnline(RunOnline(on, ops), op)
  {
    assert (ops + [op])[..|ops|] == ops;
  }

  lemma OpsOfOne(calls: seq<Call>, c: Call)
    ensures OpsOf(calls + [c]) == OpsOf(calls) + OpsOfCall(c)
  {
    assert (calls + [c])[..|calls|] == calls;
  }

  lemma {:induction false} RunAppends(open: OpenSessions, on: set<Id>, a: seq<Op>, b: seq<Op>)
    ensures RunOpen(open, a + b) == RunOpen(RunOpen(open, a), b)
    ensures RunOnline(on, a + b) == RunOnline(RunOnline(on, a), b)
    decreases |b|
  {
    if b == [] {
      assert a + b == a;
    } else {
      hide RunOpen, RunOnline, StepOpen, StepOnline;
      var front, op := b[..|b| - 1], b[|b| - 1];
      Orders.SplitLast(b);
      RunAppends(open, on, a, front);
      Orders.Concat(a, front, [op]);
      RunOpenOne(open, a + front, op);
      RunOnlineOne(on, a + front, op);
      RunOpenOne(RunOpen(open, a), front, op);
      RunOnlineOne(RunOnline(on, a), front, op);
    }
  }

  lemma {:induction false} OpsAppend(a: seq<Call>, b: seq<Call>)
    ensures OpsOf(a + b) == OpsOf(a) + OpsOf(b)
    decreases |b|
  {
    if b == [] {
      assert a + b == a;
    } else {
      hide OpsOf, OpsOfCall;
      var front, c := b[..|b| - 1], b[|b| - 1];
      Orders.SplitLast(b);
      OpsAppend(a, front);
      Orders.Concat(a, front, [c]);
      OpsOfOne(a + front, c);
      OpsOfOne(front, c);
      Orders.Concat(OpsOf(a), OpsOf(front), OpsOfCall(c));
    }
  }

  /** The rows of the database follow the operations, whatever the times. */
  lemma {:induction false} RecordedFollows(before: seq<Entry>, ops: seq<Op>, after: seq<Entry>)
    requires Recorded(before, ops, after) && forall i :: 0 <= i < |ops| ==> ops[i] != Recover
    ensures OpenOf(Run(EMPTY, after)) == RunOpen(OpenOf(Run(EMPTY, before)), ops)
    ensures OnlineOf(Run(EMPTY, after)) == RunOnline(OnlineOf(Run(EMPTY, before)), ops)
    decreases |ops|
  {
    hide Apply, OpenOf, OnlineOf, StepOpen, StepOnline;
    if ops == [] {
      assert after == before;
    } else {
      var n := |ops| - 1;
      var mid := after[..|after| - 1];
      var e := after[|before| + n];
      assert e.op == ops[n];
      assert Recorded(before, ops[..n], mid);
      RecordedFollows(before, ops[..n], mid);
      assert after == mid + [e];
      RunOneMore(mid, e);
      assert Sorted(1, mid);
      WellFormedRun(EMPTY, 1, mid);
      OpenFollows(Run(EMPTY, mid), e.op, LastTime(1, mid), e.at);
      OnlineFollows(Run(EMPTY, mid), e.op, e.at);
    }
  }

  lemma RunOneMore(past: seq<Entry>, e: Entry)
    ensures Run(EMPTY, past + [e]) == Apply(Run(EMPTY, past), e.op, e.at)
  {
    hide Apply;
    RunAppend(EMPTY, past, [e]);
    assert [e][1..] == [];
  }

  lemma RecordedAppends(a: seq<Entry>, ops: seq<Op>, b: seq<Entry>, more: seq<Op>, c: seq<Entry>)
    requires Recorded(a, ops, b) && Recorded(b, more, c)
    ensures Recorded(a, ops + more, c)
  {
    assert a == c[..|a|];
    forall i | 0 <= i < |ops + more|
      ensures c[|a| + i].op == (ops + more)[i]
    {
      if i < |ops| {
        assert b[|a| + i] == c[|a| + i];
      } else {
        assert c[|b| + (i - |ops|)].op == more[i - |ops|];
      }
    }
  }

  lemma {:induction false} CallsNeverRecover(calls: seq<Call>)
    ensures forall i :: 0 <= i < |OpsOf(calls)| ==> OpsOf(calls)[i] != Recover
  {
    if calls != [] {
      CallsNeverRecover(calls[..|calls| - 1]);
    }
  }

  // ---- callbacks and pairs ----------------------------------------------------------------

  /** The sessions in memory, with the host each transmission has. */
  function InMemory(s: TM): OpenSessions {
    map p | p in Pairs(s.guests) :: HostName(s.hostOf, p.0)
  }

  function StepPairs(open: set<Pair>, c: Call): set<Pair> {
    match c
    case Started(t, _, g) => open + {(t, g)}
    case Ended(t, _, g) => open - {(t, g)}
    case TimedOut(_, _) => open
  }

  predicate InTurn(open: set<Pair>, c: Call) {
    match c
    case Started(t, _, g) => (t, g) !in open
    case Ended(t, _, g) => (t, g) in open
    case TimedOut(_, _) => true
  }

  /** The pairs opened and not yet ended by the callbacks of one server process. */
  function OpenPairs(calls: seq<Call>): set<Pair> {
    if calls == [] then {} else StepPairs(OpenPairs(calls[..|calls| - 1]), calls[|calls| - 1])
  }

  /** Per pair, start and end callbacks alternate, beginning with a start. */
  predicate Alternates(calls: seq<Call>) {
    calls == []
    || (Alternates(calls[..|calls| - 1]) && InTurn(OpenPairs(calls[..|calls| - 1]), calls[|calls| - 1]))
  }

  lemma AlternatesOne(calls: seq<Call>, c: Call)
    ensures OpenPairs(calls + [c]) == StepPairs(OpenPairs(calls), c)
    ensures Alternates(calls + [c]) <==> Alternates(calls) && InTurn(OpenPairs(calls), c)
  {
    assert (calls + [c])[..|calls|] == calls;
  }

  lemma OneLess<T>(before: set<T>, after: set<T>, p: T)
    requires p in before - after
    ensures before - (after + {p}) + {p} == before - after && after + {p} - {p} == after && p in after + {p}
  {
  }

  lemma RemoveTwice<K, V>(m: map<K, V>, a: set<K>, b: set<K>)
    ensures m - a - b == m - (a + b)
  {
  }

  /** Exact end callbacks take exactly the vanished pairs out of the call log ... */
  lemma {:induction false} EndsCloseLog(log: seq<Call>, calls: seq<Call>, hostOf: map<Id, Id>,
                                        before: set<Pair>, after: set<Pair>)
    requires EndsExactly(calls, hostOf, before, after)
    requires Alternates(log) && OpenPairs(log) == before
    ensures Alternates(log + calls) && OpenPairs(log + calls) == after
    decreases |calls|
  {
    if calls == [] {
      NothingEnds(hostOf, before, after);
      assert log + calls == log;
    } else {
      hide EndsExactly, Alternates, OpenPairs;
      var front, c := calls[..|calls| - 1], calls[|calls| - 1];
      var p := (c.transmission, c.guest);
      Orders.SplitLast(calls);
      EndsPrefix(calls, hostOf, before, after);
      EndsCloseLog(log, front, hostOf, before, after + {p});
      Orders.Concat(log, front, [c]);
      AlternatesOne(log + front, c);
      OneLess(before, after, p);
    }
  }

  // ---- callbacks and rows -----------------------------------------------------------------

  /** The row that ending the session deletes, if any. */
  function KeyOf(p: Pair): set<SessionKey> {
    if p.0 == "" || p.1 == "" then {} else {(Stored(p.0), Stored(p.1))}
  }

  function KeysOf(pairs: set<Pair>): set<SessionKey> {
    set p, k | p in pairs && k in KeyOf(p) :: k
  }

  lemma KeysOfMore(pairs: set<Pair>, p: Pair)
    ensures KeysOf(pairs + {p}) == KeysOf(pairs) + KeyOf(p)
  {
    hide KeyOf;
    forall k | k in KeyOf(p)
      ensures k in KeysOf(pairs + {p})
    {
      assert p in pairs + {p};
    }
  }

  lemma KeysOfUnion(a: set<Pair>, b: set<Pair>)
    ensures KeysOf(a + b) == KeysOf(a) + KeysOf(b)
  {
    hide KeyOf;
    forall p, k | p in a + b && k in KeyOf(p)
      ensures k in KeysOf(a) + KeysOf(b) && k in KeysOf(a + b)
    {
      assert p in a || p in b;
    }
    assert forall p :: p in a || p in b ==> p in a + b;
  }

  /** A session whose ids reach the database whole, with a guest that is named. */
  predicate Whole(p: Pair) {
    NoNul(p.0) && NoNul(p.1) && p.0 != "" && p.1 != ""
  }

  lemma KeysOfWhole(pairs: set<Pair>)
    requires forall p :: p in pairs ==> Whole(p)
    ensures KeysOf(pairs) == pairs
  {
    hide Stored, NoNul;
    forall p | p in pairs
      ensures KeyOf(p) == {p}
    {
    }
    hide KeyOf;
  }

  /** The online flags that logging out the users clears. */
  function StoredUsers(users: set<Id>): set<Id> {
    set u | u in users :: Stored(u)
  }

  lemma StoredUsersMore(users: set<Id>, u: Id)
    ensures StoredUsers(users + {u}) == StoredUsers(users) + {Stored(u)} && StoredUsers({}) == {}
  {
    hide Stored;
    assert u in users + {u};
    assert forall v :: v in users ==> v in users + {u};
  }

  lemma StoredUsersUnion(a: set<Id>, b: set<Id>)
    ensures StoredUsers(a + b) == StoredUsers(a) + StoredUsers(b)
  {
    hide Stored;
    assert forall v :: v in a || v in b ==> v in a + b;
  }

  lemma StoredUsersWhole(users: set<Id>)
    requires forall u :: u in users ==> NoNul(u)
    ensures StoredUsers(users) == users
  {
    hide Stored, NoNul;
    assert forall u :: u in users ==> Stored(u) == u;
  }

  /** ... and out of the database, and log nobody out. */
  lemma {:induction false} EndsCloseRows(calls: seq<Call>, hostOf: map<Id, Id>, before: set<Pair>, after: set<Pair>,
                                         open: OpenSessions, on: set<Id>)
    requires EndsExactly(calls, hostOf, before, after)
    ensures RunOpen(open, OpsOf(calls)) == open - KeysOf(before - after)
    ensures RunOnline(on, OpsOf(calls)) == on
    decreases |calls|
  {
    if calls == [] {
      NothingEnds(hostOf, before, after);
      assert before - after == {} && KeysOf({}) == {};
      assert open - {} == open;
    } else {
      hide EndsExactly, RunOpen, RunOnline, OpsOf, KeyOf, KeysOf;
      var front, c := calls[..|calls| - 1], calls[|calls| - 1];
      var p := (c.transmission, c.guest);
      Orders.SplitLast(calls);
      EndsPrefix(calls, hostOf, before, after);
      EndsCloseRows(front, hostOf, before, after + {p}, open, on);
      EndRunsLast(open, on, front, c);
      OneLess(before, after, p);
      KeysOfMore(before - (after + {p}), p);
      RemoveTwice(open, KeysOf(before - (after + {p})), KeyOf(p));
    }
  }

  lemma EndRunsLast(open: OpenSessions, on: set<Id>, calls: seq<Call>, c: Call)
    requires c.Ended?
    ensures RunOpen(open, OpsOf(calls + [c])) == RunOpen(open, OpsOf(calls)) - KeyOf((c.transmission, c.guest))
    ensures RunOnline(on, OpsOf(calls + [c])) == RunOnline(on, OpsOf(calls))
  {
    hide Stored, RunOpen, RunOnline, OpsOf;
    var op := EndSession(c.transmission, c.host, c.guest);
    OpsOfOne(calls, c);
    RunOpenOne(open, OpsOf(calls), op);
    RunOnlineOne(on, OpsOf(calls), op);
    NothingRemoved(RunOpen(open, OpsOf(calls)));
  }

  lemma NothingRemoved(open: OpenSessions)
    ensures open - {} == open
  {
  }

  lemma SomethingEnds(calls: seq<Call>, hostOf: map<Id, Id>, before: set<Pair>, after: set<Pair>, p: Pair)
    requires EndsExactly(calls, hostOf, before, after) && p in before - after
    ensures calls != []
  {
    assert Ended(p.0, HostName(hostOf, p.0), p.1) in calls;
  }

  lemma NothingEnds(hostOf: map<Id, Id>, before: set<Pair>, after: set<Pair>)
    requires EndsExactly([], hostOf, before, after)
    ensures before == after
  {
    forall p | p in before
      ensures p in after
    {
      if p !in after {
        SomethingEnds([], hostOf, before, after, p);
      }
    }
  }

  lemma EndsPrefix(calls: seq<Call>, hostOf: map<Id, Id>, before: set<Pair>, after: set<Pair>)
    requires EndsExactly(calls, hostOf, before, after) && calls != []
    ensures var n, c := |calls| - 1, calls[|calls| - 1];
            && c.Ended? && (c.transmission, c.guest) in before - after
            && EndsExactly(calls[..n], hostOf, before, after + {(c.transmission, c.guest)})
  {
    var n := |calls| - 1;
    var p := (calls[n].transmission, calls[n].guest);
    forall q | q in before - (after + {p})
      ensures Ended(q.0, HostName(hostOf, q.0), q.1) in calls[..n]
    {
      assert Ended(q.0, HostName(hostOf, q.0), q.1) in calls;
    }
  }
}
