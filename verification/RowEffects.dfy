/** What each operation leaves in the rows, column by column. */
module RowEffects {
  import opened Identity
  import opened Ledger
  import Sums

  /** The row with which a device enters the table without being online: nothing banked, nothing known. */
  predicate IsBlank(r: PresenceRow, at: int) {
    && !r.online && r.updatedAt == at && r.onlineSince == 0
    && r.totalOnline == 0 && r.totalControl == 0 && r.totalControlled == 0
    && r.client.version == "" && r.client.platform == ""
  }

  /** Nobody else's row changes. */
  predicate OthersStay(before: map<Id, PresenceRow>, after: map<Id, PresenceRow>, d: Id) {
    && after.Keys == before.Keys + {d}
    && forall e :: e in before && e != d ==> after[e] == before[e]
  }

  /** A login puts the device online from now on, or leaves the running interval alone; it banks nothing. */
  lemma OnlineWrites(tb: Tables, d: Id, from: int, at: int)
    requires WellFormed(tb, from)
    ensures var id, after := Stored(d), Apply(tb, SetOnline(d), at);
            && OthersStay(tb.presence, after.presence, id) && after.sessions == tb.sessions
            && after.lastSeen == tb.lastSeen
            && var r := after.presence[id];
               && r.online && r.updatedAt == at
               && (id !in tb.presence ==> r.onlineSince == at && IsBlank(r.(online := false, onlineSince := 0), at))
               && (id in tb.presence ==>
                     var was := tb.presence[id];
                     && r.onlineSince == (if was.online then was.onlineSince else at)
                     && r == was.(online := true, updatedAt := at, onlineSince := r.onlineSince))
  {
    hide Stored, NoNul;
    assert Stored(d) in tb.presence ==> RowOk(tb.presence[Stored(d)], from);
  }

  /** A logout takes it offline and banks the interval, if there was one. */
  lemma OfflineWrites(tb: Tables, d: Id, from: int, at: int)
    requires WellFormed(tb, from) && from <= at
    ensures var id, after := Stored(d), Apply(tb, SetOffline(d), at);
            && OthersStay(tb.presence, after.presence, id) && after.sessions == tb.sessions
            && after.lastSeen == tb.lastSeen
            && var r := after.presence[id];
               && (id !in tb.presence ==> IsBlank(r, at))
               && (id in tb.presence ==>
                     var was := tb.presence[id];
                     r == was.(online := false, updatedAt := at, onlineSince := 0,
                               totalOnline := was.totalOnline + if was.online then at - was.onlineSince else 0))
  {
    hide Stored, NoNul;
    assert Stored(d) in tb.presence ==> RowOk(tb.presence[Stored(d)], from);
  }

  lemma StoreClientWrites(p: map<Id, PresenceRow>, id: Id, c: Client, at: int)
    ensures var after := StoreClient(p, id, c, at);
            && OthersStay(p, after, id) && after[id].client == c
            && (id in p ==> SameButClient(p[id], after[id])) && (id !in p ==> SameButClient(BlankRow(at), after[id]))
  {
  }

  /** Client information goes into the two columns of the device, as far as it reaches the database, and nowhere
      else. */
  lemma ClientWrites(tb: Tables, d: Id, version: string, platform: string, at: int)
    requires d != ""
    ensures var id, after := Stored(d), Apply(tb, ClientInfo(d, Client(version, platform)), at);
            && OthersStay(tb.presence, after.presence, id) && after.sessions == tb.sessions
            && after.lastSeen == tb.lastSeen
            && after.presence[id].client.version == Stored(version)
            && after.presence[id].client.platform == Stored(platform)
            && (id in tb.presence ==> SameButClient(tb.presence[id], after.presence[id]))
            && (id !in tb.presence ==> SameButClient(BlankRow(at), after.presence[id]))
  {
    hide Stored, NoNul, StoreClient, SameButClient, OthersStay, BlankRow;
    StoreClientWrites(tb.presence, Stored(d), StoredInfo(Client(version, platform)), at);
  }

  predicate SameButClient(was: PresenceRow, r: PresenceRow) {
    && r.online == was.online && r.updatedAt == was.updatedAt && r.onlineSince == was.onlineSince
    && r.totalOnline == was.totalOnline && r.totalControl == was.totalControl
    && r.totalControlled == was.totalControlled
  }

  lemma BlankIsBlank(at: int)
    ensures IsBlank(BlankRow(at), at)
  {
  }

  /** A session that starts gets a row with the time, under the ids as they reach the database, unless it has one; the
      devices its two parties are accounted to get presence rows, unless they have them; nothing else changes. */
  lemma StartWrites(tb: Tables, t: Id, h: Id, g: Id, at: int)
    requires Registered(t, h)
    ensures var after := Apply(tb, StartSession(t, h, g), at);
            after.lastSeen == tb.lastSeen
            && if t == "" || h == "" || g == "" || h == g then after == tb
            else
              var k := (Stored(t), Stored(g));
              && after.sessions.Keys == tb.sessions.Keys + {k}
              && (forall j :: j in tb.sessions ==> after.sessions[j] == tb.sessions[j])
              && (k !in tb.sessions ==> after.sessions[k].host == Stored(h) && after.sessions[k].startedAt == at)
              && (forall d :: d in after.presence <==>
                    d in tb.presence || AccountedTo(Stored(h), d) || AccountedTo(Stored(g), d))
              && (forall d :: d in tb.presence ==> after.presence[d] == tb.presence[d])
              && (forall d :: d in after.presence && d !in tb.presence ==> IsBlank(after.presence[d], at))
  {
    hide Stored, NoNul, Normalize, AccountedTo, IsBlank;
    BlankIsBlank(at);
    forall d
      ensures AccountedTo(Stored(h), d) <==> d == Normalize(Stored(h))
      ensures AccountedTo(Stored(g), d) <==> d == Normalize(Stored(g))
    {
      NormalizeMeans(Stored(h), d);
      NormalizeMeans(Stored(g), d);
    }
  }

  /** The seconds that the end of a session adds to the two totals of one device. */
  predicate Credited(was: PresenceRow, r: PresenceRow, asGuest: bool, asHost: bool, seconds: int) {
    r == was.(totalControl := was.totalControl + if asGuest then seconds else 0,
              totalControlled := was.totalControlled + if asHost then seconds else 0)
  }

  /** A session that ends loses its row; its length goes to the control seconds of the device its guest is accounted to
      and to the controlled seconds of the device its host is accounted to; nothing else changes. */
  lemma EndWrites(tb: Tables, t: Id, h: Id, g: Id, from: int, at: int)
    requires WellFormed(tb, from) && from <= at
    ensures var after, k := Apply(tb, EndSession(t, h, g), at), (Stored(t), Stored(g));
            if t == "" || g == "" || k !in tb.sessions then after == tb
            else
              && after.sessions == tb.sessions - {k} && after.lastSeen == tb.lastSeen
              && after.presence.Keys == tb.presence.Keys
              && forall d :: d in tb.presence ==>
                   Credited(tb.presence[d], after.presence[d], AccountedTo(k.1, d),
                            AccountedTo(tb.sessions[k].host, d), at - tb.sessions[k].startedAt)
  {
    hide NoNul, Normalize, AccountedTo, Stored;
    var k := (Stored(t), Stored(g));
    if k in tb.sessions {
      assert SessionOk(tb, k, from);
      forall d
        ensures AccountedTo(k.1, d) <==> d == Normalize(k.1)
        ensures AccountedTo(tb.sessions[k].host, d) <==> d == Normalize(tb.sessions[k].host)
      {
        NormalizeMeans(k.1, d);
        NormalizeMeans(tb.sessions[k].host, d);
      }
    }
  }

  /** When the process was last known to run, read off the operations alone: at the last heartbeat, or the restart that
      began with one. */
  function LastBeat(entries: seq<Entry>): int {
    if entries == [] then 0
    else
      var last := entries[|entries| - 1];
      if last.op.Heartbeat? || last.op.Recover? then last.at else LastBeat(entries[..|entries| - 1])
  }

  lemma {:induction false} LastSeenIs(entries: seq<Entry>)
    ensures Run(EMPTY, entries).lastSeen == LastBeat(entries)
  {
    if entries != [] {
      var front, last := entries[..|entries| - 1], entries[|entries| - 1];
      LastSeenIs(front);
      RunAppend(EMPTY, front, [last]);
      assert entries == front + [last] && [last][1..] == [];
    }
  }

  /** A restart within 120 seconds of the last heartbeat keeps the sessions, a later one drops them; it takes everybody
      offline and touches no other column. The totals it leaves are those of Accounting.RecoveredFigures. */
  lemma RecoverWrites(tb: Tables, from: int, at: int)
    requires WellFormed(tb, from) && 0 < from <= at
    ensures var after := Apply(tb, Recover, at);
            && after.lastSeen == at && after.presence.Keys == tb.presence.Keys
            && after.sessions == (if tb.lastSeen > 0 && at - tb.lastSeen <= 120 then tb.sessions else map[])
            && (forall d :: d in tb.presence ==>
                  var was, r := tb.presence[d], after.presence[d];
                  && !r.online && r.onlineSince == 0 && r.client == was.client
                  && r.updatedAt == (if !was.online then was.updatedAt
                                     else if tb.lastSeen > 0 then tb.lastSeen else at))
  {
    hide Sums.Sum, Live, NoNul;
    forall d | d in tb.presence
      ensures RowOk(tb.presence[d], from)
    {
    }
  }
}
