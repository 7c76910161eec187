/** change_password: a client may repeat a request whose answer it lost; the repeat replays the answer and does
    not change the password again, as long as the answer is still remembered. */
module PasswordChange {
  import opened Identity
  import opened Options
  import opened Orders

  datatype Status = Succeeded | NotAuthenticated | NotAllowed | BadRequestId | BadPassword | AlreadyUsed | UpdateFailed

  /** The reply: the request id and user it names, if it got that far, and the outcome. */
  datatype Response = Response(requestId: Option<string>, userId: Option<Id>, status: Status)

  datatype Remembered = Remembered(fingerprint: string, response: Response)

  datatype Cache = Cache(results: map<string, Remembered>, order: seq<string>)

  /** A request as the server sees it: the string fields, if present; the user its socket is logged in as; and whether
      the database update would go through. */
  datatype Request = Request(requestId: Option<string>, user: Id, password: Option<string>, stores: bool)

  /** PasswordFingerprint; which function it is does not matter here. */
  type Digest = string -> string

  const MAX_REMEMBERED := 4096
  const MAX_REQUEST_ID := 128
  const PASSWORD_LENGTH := 6

  const NOTHING := Cache(map[], [])

  function Key(user: Id, requestId: string): string {
    user + "\n" + requestId
  }

  /** The checks before the cache is consulted; `Succeeded` stands for "none failed". */
  function Check(r: Request): Status {
    if r.requestId.None? || r.requestId.value == "" || |r.requestId.value| > MAX_REQUEST_ID then BadRequestId
    else if r.user == "" then NotAuthenticated
    else if IsCloneClient(r.user) || IsWebClient(r.user) then NotAllowed
    else if r.password.None? || |r.password.value| != PASSWORD_LENGTH then BadPassword
    else Succeeded
  }

  predicate WellMade(r: Request) {
    Check(r) == Succeeded
  }

  function KeyOf(r: Request): string
    requires WellMade(r)
  {
    Key(r.user, r.requestId.value)
  }

  /** The request reaches the database and changes the password. */
  predicate Updates(c: Cache, r: Request) {
    WellMade(r) && KeyOf(r) !in c.results && r.stores
  }

  function Reply(f: Digest, c: Cache, r: Request): Response {
    if Check(r) == BadRequestId then Response(None, None, BadRequestId)
    else
      var response := Response(r.requestId, Some(r.user), Check(r));
      if !WellMade(r) then response
      else if KeyOf(r) in c.results then
        if c.results[KeyOf(r)].fingerprint != f(r.password.value) then response.(status := AlreadyUsed)
        else c.results[KeyOf(r)].response
      else if !r.stores then response.(status := UpdateFailed)
      else response.(status := Succeeded)
  }

  /** The last `n` elements. */
  function Last<T>(s: seq<T>, n: nat): seq<T> {
    if |s| <= n then s else s[|s| - n..]
  }

  function After(f: Digest, c: Cache, r: Request): Cache {
    if !Updates(c, r) then c
    else
      var order := Last(c.order + [KeyOf(r)], MAX_REMEMBERED);
      var results := c.results[KeyOf(r) := Remembered(f(r.password.value), Reply(f, c, r))];
      Cache(Restrict(results, order), order)
  }

  /** The answers to these keys. */
  function Restrict(results: map<string, Remembered>, order: seq<string>): map<string, Remembered> {
    map k | k in results && k in order :: results[k]
  }

  ghost predicate CacheOk(c: Cache) {
    Distinct(c.order) && |c.order| <= MAX_REMEMBERED && c.results.Keys == Elements(c.order)
  }

  class PasswordChanges {
    const fingerprint: Digest
    var results: map<string, Remembered>
    var order: seq<string>

    ghost function State(): Cache
      reads this
    {
      Cache(results, order)
    }

    ghost predicate Valid()
      reads this
    {
      CacheOk(State())
    }

    constructor (fingerprint: Digest)
      ensures Valid() && State() == NOTHING && this.fingerprint == fingerprint
    {
      this.fingerprint := fingerprint;
      results, order := map[], [];
    }

    /** change_password. `updated` says whether UpdatePassword was called and went through. */
    method ChangePassword(r: Request) returns (response: Response, updated: bool)
      requires Valid()
      modifies this
      ensures Valid() && State() == After(fingerprint, old(State()), r)
      ensures response == Reply(fingerprint, old(State()), r) && updated == Updates(old(State()), r)
    {
      hide Last, Distinct, Elements, Key;
      updated := false;
      response := Response(None, None, BadRequestId);
      if r.requestId.None? || r.requestId.value == "" || |r.requestId.value| > MAX_REQUEST_ID {
        return;
      }
      response := Response(r.requestId, Some(r.user), Check(r));
      if response.status != Succeeded {
        return;
      }
      var key := Key(r.user, r.requestId.value);
      if key in results {
        response := if results[key].fingerprint != fingerprint(r.password.value) then response.(status := AlreadyUsed)
                    else results[key].response;
      } else if !r.stores {
        response := response.(status := UpdateFailed);
      } else {
        updated := true;
        AfterIsOk(fingerprint, State(), r);
        GrownIsDistinct(State(), key, Remembered(fingerprint(r.password.value), response));
        results := results[key := Remembered(fingerprint(r.password.value), response)];
        order := order + [key];
        Evict();
      }
    }

    /** The eviction loop. */
    method Evict()
      requires Distinct(order) && results.Keys == Elements(order)
      modifies this
      ensures order == Last(old(order), MAX_REMEMBERED)
      ensures results == Restrict(old(results), order)
    {
      hide Distinct, Elements;
      ghost var dropped := 0;
      assert order[0..] == order;
      AllKept(results, order);
      hide Restrict;
      while |order| > MAX_REMEMBERED
        invariant 0 <= dropped <= |old(order)| && order == old(order)[dropped..]
        invariant dropped == 0 || |order| >= MAX_REMEMBERED
        invariant results == Restrict(old(results), order)
        decreases |order|
      {
        FrontDrops(old(order), dropped, old(results));
        results := results - {order[0]};
        order := order[1..];
        dropped := dropped + 1;
      }
    }
  }

  lemma AllKept(results: map<string, Remembered>, order: seq<string>)
    requires results.Keys == Elements(order)
    ensures Restrict(results, order) == results
  {
    assert forall k :: k in results ==> k in Elements(order);
  }

  lemma GrownIsDistinct(c: Cache, k: string, answer: Remembered)
    requires CacheOk(c) && k !in c.results
    ensures Distinct(c.order + [k]) && c.results[k := answer].Keys == Elements(c.order + [k])
  {
    assert k !in Elements(c.order);
    DistinctMore(c.order, k);
  }

  lemma FrontDrops(all: seq<string>, n: nat, results: map<string, Remembered>)
    requires Distinct(all) && n < |all|
    ensures all[n..][1..] == all[n + 1..] && all[n..][0] == all[n]
    ensures Restrict(results, all[n..]) - {all[n]} == Restrict(results, all[n + 1..])
  {
    assert all[n..] == [all[n]] + all[n + 1..];
    assert all[n] !in all[n + 1..];
  }

  lemma LastMembers<T>(s: seq<T>, n: nat)
    ensures forall x :: x in Last(s, n) ==> x in s
    ensures Distinct(s) ==> Distinct(Last(s, n))
    ensures |Last(s, n)| <= n
  {
  }

  lemma AfterIsOk(f: Digest, c: Cache, r: Request)
    requires CacheOk(c)
    ensures CacheOk(After(f, c, r))
  {
    if Updates(c, r) {
      LastMembers(c.order + [KeyOf(r)], MAX_REMEMBERED);
    }
  }

  // ---- runs -------------------------------------------------------------------------------

  /** The cache after a list of requests, oldest first. */
  function CacheAfter(f: Digest, rs: seq<Request>): Cache {
    if rs == [] then NOTHING else After(f, CacheAfter(f, rs[..|rs| - 1]), rs[|rs| - 1])
  }

  /** The keys of the requests that changed a password, in order. */
  function Successes(f: Digest, rs: seq<Request>): seq<string> {
    if rs == [] then []
    else
      var front, r := rs[..|rs| - 1], rs[|rs| - 1];
      Successes(f, front) + if Updates(CacheAfter(f, front), r) then [KeyOf(r)] else []
  }

  lemma LastOfLast<T>(s: seq<T>, x: T, n: nat)
    requires n > 0
    ensures Last(Last(s, n) + [x], n) == Last(s + [x], n)
  {
    var l := Last(s, n) + [x];
    if |s| > n {
      assert l == s[|s| - n..] + [x];
      assert l[1..] == (s + [x])[|s| + 1 - n..];
    }
  }

  /** The cache always holds exactly the last 4096 successful requests, in order and without repeats. */
  lemma {:induction false} CacheIsRecent(f: Digest, rs: seq<Request>)
    ensures CacheOk(CacheAfter(f, rs)) && CacheAfter(f, rs).order == Last(Successes(f, rs), MAX_REMEMBERED)
    decreases |rs|
  {
    if rs != [] {
      var front, r := rs[..|rs| - 1], rs[|rs| - 1];
      CacheIsRecent(f, front);
      AfterIsOk(f, CacheAfter(f, front), r);
      if Updates(CacheAfter(f, front), r) {
        LastOfLast(Successes(f, front), KeyOf(r), MAX_REMEMBERED);
      } else {
        assert Successes(f, front) + [] == Successes(f, front);
      }
    }
  }

  /** Among all requests ever made, one changes the password again only if its key is not among the last 4096. */
  lemma UpdatesIff(f: Digest, rs: seq<Request>, r: Request)
    requires WellMade(r) && r.stores
    ensures Updates(CacheAfter(f, rs), r) <==> KeyOf(r) !in Last(Successes(f, rs), MAX_REMEMBERED)
  {
    CacheIsRecent(f, rs);
    assert KeyOf(r) in CacheAfter(f, rs).results <==> KeyOf(r) in Elements(CacheAfter(f, rs).order);
  }

  /** One more request leaves the answer to a remembered key alone, as long as the key is remembered. */
  lemma AnswerStaysOnce(f: Digest, c: Cache, r: Request, k: string)
    requires CacheOk(c) && k in c.results && k in After(f, c, r).order
    ensures k in After(f, c, r).results && After(f, c, r).results[k] == c.results[k]
  {
    hide Reply, Check;
  }

  lemma SuccessesGrow(f: Digest, rs: seq<Request>, r: Request)
    ensures CacheAfter(f, rs + [r]) == After(f, CacheAfter(f, rs), r)
    ensures Successes(f, rs) <= Successes(f, rs + [r])
  {
    hide After, Updates;
    assert (rs + [r])[..|rs|] == rs;
  }

  /** The answer to a key stays what it was while the key is remembered. */
  lemma {:induction false} AnswerStays(f: Digest, rs: seq<Request>, more: seq<Request>, k: string)
    requires k in CacheAfter(f, rs).results && |Successes(f, rs + more)| < |Successes(f, rs)| + MAX_REMEMBERED
    requires Successes(f, rs) != [] && Successes(f, rs)[|Successes(f, rs)| - 1] == k
    ensures k in CacheAfter(f, rs + more).results && CacheAfter(f, rs + more).results[k] == CacheAfter(f, rs).results[k]
    ensures Successes(f, rs) <= Successes(f, rs + more)
    decreases |more|
  {
    hide CacheAfter, Successes, After, Last;
    if more == [] {
      assert rs + more == rs;
    } else {
      var front, r := more[..|more| - 1], more[|more| - 1];
      assert rs + more == rs + front + [r];
      SuccessesGrow(f, rs + front, r);
      AnswerStays(f, rs, front, k);
      CacheIsRecent(f, rs + front);
      CacheIsRecent(f, rs + more);
      StillRecent(Successes(f, rs + more), |Successes(f, rs)| - 1, MAX_REMEMBERED);
      AnswerStaysOnce(f, CacheAfter(f, rs + front), r, k);
    }
  }

  lemma StillRecent<T>(s: seq<T>, i: nat, n: nat)
    requires i < |s| <= i + n
    ensures s[i] in Last(s, n)
  {
    if |s| > n {
      assert Last(s, n)[i - (|s| - n)] == s[i];
    }
  }

  /** At most once: after a request changed the password, repeating it within 4096 later changes does not change
      it again; with the same password it gets the very same answer, with another one it is refused. */
  lemma AtMostOnce(f: Digest, rs: seq<Request>, first: Request, between: seq<Request>, again: Request)
    requires Updates(CacheAfter(f, rs), first) && WellMade(again) && KeyOf(again) == KeyOf(first)
    requires |Successes(f, rs + [first] + between)| < |Successes(f, rs + [first])| + MAX_REMEMBERED
    ensures var c := CacheAfter(f, rs + [first] + between);
            && !Updates(c, again)
            && (again.password == first.password ==> Reply(f, c, again) == Reply(f, CacheAfter(f, rs), first))
            && (f(again.password.value) != f(first.password.value) ==> Reply(f, c, again).status == AlreadyUsed)
  {
    var past := rs + [first];
    assert past[..|past| - 1] == rs && past[|past| - 1] == first;
    CacheIsRecent(f, past);
    var k := KeyOf(first);
    assert Successes(f, past)[|Successes(f, past)| - 1] == k;
    StillRecent(Successes(f, past), |Successes(f, past)| - 1, MAX_REMEMBERED);
    assert k in Elements(CacheAfter(f, past).order);
    assert CacheAfter(f, past).results[k] == Remembered(f(first.password.value), Reply(f, CacheAfter(f, rs), first));
    AnswerStays(f, past, between, k);
  }

  // ---- the replies, read off the requests --------------------------------------------------

  /** A change that went through. */
  datatype Change = Change(user: Id, requestId: string, fingerprint: string)

  /** The latest of the last `n` changes whose user and request id, joined by a line break, are the key. */
  function Find(done: seq<Change>, n: nat, key: string): Option<Change> {
    if n == 0 || done == [] then None
    else
      var last := done[|done| - 1];
      if last.user + "\n" + last.requestId == key then Some(last) else Find(done[..|done| - 1], n - 1, key)
  }

  /** The reply to a request after these changes. The same key with the same password is answered as before; with
      another one it is refused; otherwise the database decides. */
  function ReplyTo(f: Digest, done: seq<Change>, r: Request): Response {
    if r.requestId.None? || !(1 <= |r.requestId.value| <= 128) then Response(None, None, BadRequestId)
    else
      var found := Find(done, 4096, r.user + "\n" + r.requestId.value);
      if |r.user| == 0 then Response(r.requestId, Some(r.user), NotAuthenticated)
      else if "C-" <= r.user || "web-" <= r.user then Response(r.requestId, Some(r.user), NotAllowed)
      else if r.password.None? || |r.password.value| != 6 then Response(r.requestId, Some(r.user), BadPassword)
      else if found.Some? && found.value.fingerprint == f(r.password.value) then
        Response(Some(found.value.requestId), Some(found.value.user), Succeeded)
      else if found.Some? then Response(r.requestId, Some(r.user), AlreadyUsed)
      else if r.stores then Response(r.requestId, Some(r.user), Succeeded)
      else Response(r.requestId, Some(r.user), UpdateFailed)
  }

  /** The request changes the password: success, and not from memory. */
  predicate Changes(f: Digest, done: seq<Change>, r: Request) {
    ReplyTo(f, done, r).status == Succeeded && Find(done, 4096, r.user + "\n" + r.requestId.value).None?
  }

  /** The changes that a list of requests makes, in order. */
  function Done(f: Digest, rs: seq<Request>): seq<Change> {
    if rs == [] then []
    else
      var front, r := Done(f, rs[..|rs| - 1]), rs[|rs| - 1];
      front + if Changes(f, front, r) then [Change(r.user, r.requestId.value, f(r.password.value))] else []
  }

  function Keys(done: seq<Change>): seq<string> {
    seq(|done|, i requires 0 <= i < |done| => done[i].user + "\n" + done[i].requestId)
  }

  /** The cache holds the last 4096 changes. */
  ghost predicate Recalls(c: Cache, done: seq<Change>) {
    && CacheOk(c) && c.order == Last(Keys(done), MAX_REMEMBERED)
    && forall k :: k in c.results ==> Find(done, 4096, k).Some? && IsAnswer(c.results[k], Find(done, 4096, k).value)
  }

  predicate IsAnswer(a: Remembered, c: Change) {
    a == Remembered(c.fingerprint, Response(Some(c.requestId), Some(c.user), Succeeded))
  }

  lemma KeysLast(done: seq<Change>)
    requires done != []
    ensures var n, c := |done| - 1, done[|done| - 1]; Keys(done) == Keys(done[..n]) + [c.user + "\n" + c.requestId]
  {
  }

  lemma LastMore<T>(s: seq<T>, x: T, n: nat, y: T)
    requires n > 0
    ensures y in Last(s + [x], n) <==> y == x || y in Last(s, n - 1)
  {
    if |s| < n {
      assert Last(s + [x], n) == s + [x] && Last(s, n - 1) == s;
    } else {
      assert Last(s + [x], n) == Last(s, n - 1) + [x];
    }
  }

  lemma {:induction false} FindIff(done: seq<Change>, n: nat, k: string)
    ensures Find(done, n, k).Some? <==> k in Last(Keys(done), n)
    decreases |done|
  {
    if n != 0 && done != [] {
      var m, c := |done| - 1, done[|done| - 1];
      FindIff(done[..m], n - 1, k);
      KeysLast(done);
      hide Last, Keys;
      LastMore(Keys(done[..m]), c.user + "\n" + c.requestId, n, k);
    }
  }

  lemma {:induction false} FindFewer(done: seq<Change>, n: nat, k: string)
    ensures Find(done, n, k).Some? ==> Find(done, n + 1, k) == Find(done, n, k)
    decreases |done|
  {
    if n != 0 && done != [] {
      FindFewer(done[..|done| - 1], n - 1, k);
    }
  }

  lemma FindMore(done: seq<Change>, c: Change, n: nat, k: string)
    requires n > 0
    ensures Find(done + [c], n, k)
         == if c.user + "\n" + c.requestId == k then Some(c) else Find(done, n - 1, k)
  {
    assert (done + [c])[..|done|] == done;
  }

  lemma RecalledIff(c: Cache, done: seq<Change>, k: string)
    requires Recalls(c, done)
    ensures k in c.results <==> Find(done, 4096, k).Some?
  {
    hide Find, Keys, Last, Distinct;
    FindIff(done, 4096, k);
    assert k in c.results <==> k in Elements(c.order);
  }

  lemma RepliesAgree(f: Digest, c: Cache, done: seq<Change>, r: Request)
    requires Recalls(c, done)
    ensures Reply(f, c, r) == ReplyTo(f, done, r) && (Updates(c, r) <==> Changes(f, done, r))
  {
    if WellMade(r) {
      RecalledIff(c, done, r.user + "\n" + r.requestId.value);
    }
    hide Find, Keys, Last, Distinct, Elements;
  }

  lemma StillRecalls(f: Digest, c: Cache, done: seq<Change>, r: Request)
    requires Recalls(c, done) && Updates(c, r)
    ensures Recalls(After(f, c, r), done + [Change(r.user, r.requestId.value, f(r.password.value))])
  {
    var change, k := Change(r.user, r.requestId.value, f(r.password.value)), KeyOf(r);
    var c', done' := After(f, c, r), done + [change];
    AfterIsOk(f, c, r);
    assert done'[..|done|] == done;
    KeysLast(done');
    LastOfLast(Keys(done), k, MAX_REMEMBERED);
    hide Keys, Distinct;
    forall j | j in c'.results
      ensures Find(done', 4096, j).Some? && IsAnswer(c'.results[j], Find(done', 4096, j).value)
    {
      OneStillRecalled(f, c, done, r, j);
    }
  }

  lemma AfterResults(f: Digest, c: Cache, r: Request, j: string)
    requires Updates(c, r) && j in After(f, c, r).results
    ensures j in After(f, c, r).order
    ensures if j == KeyOf(r) then IsAnswer(After(f, c, r).results[j],
                                           Change(r.user, r.requestId.value, f(r.password.value)))
            else j in c.results && After(f, c, r).results[j] == c.results[j]
  {
    hide Last;
  }

  /** A key that is still among the last 4096 after one more change is found where it was. */
  lemma OldIsFound(done: seq<Change>, c: Change, j: string)
    requires var k := c.user + "\n" + c.requestId; j != k && j in Last(Keys(done) + [k], 4096)
    ensures Find(done + [c], 4096, j) == Find(done, 4096, j)
  {
    hide Find, Keys, Last;
    FindMore(done, c, 4096, j);
    LastMore(Keys(done), c.user + "\n" + c.requestId, 4096, j);
    FindIff(done, 4095, j);
    FindFewer(done, 4095, j);
  }

  lemma OneStillRecalled(f: Digest, c: Cache, done: seq<Change>, r: Request, j: string)
    requires Recalls(c, done) && Updates(c, r) && j in After(f, c, r).results
    requires After(f, c, r).order == Last(Keys(done) + [KeyOf(r)], 4096)
    ensures var done' := done + [Change(r.user, r.requestId.value, f(r.password.value))];
            Find(done', 4096, j).Some? && IsAnswer(After(f, c, r).results[j], Find(done', 4096, j).value)
  {
    hide Find, Keys, Last, CacheOk, After, IsAnswer;
    var change := Change(r.user, r.requestId.value, f(r.password.value));
    AfterResults(f, c, r, j);
    if j == KeyOf(r) {
      FindMore(done, change, 4096, j);
    } else {
      OldIsFound(done, change, j);
    }
  }

  lemma {:induction false} AlwaysRecalls(f: Digest, rs: seq<Request>)
    ensures Recalls(CacheAfter(f, rs), Done(f, rs))
    decreases |rs|
  {
    if rs != [] {
      var front, r := rs[..|rs| - 1], rs[|rs| - 1];
      AlwaysRecalls(f, front);
      hide Recalls, Changes, Updates;
      RepliesAgree(f, CacheAfter(f, front), Done(f, front), r);
      if Updates(CacheAfter(f, front), r) {
        StillRecalls(f, CacheAfter(f, front), Done(f, front), r);
      } else {
        assert Done(f, front) + [] == Done(f, front);
        NothingAfter(f, CacheAfter(f, front), r);
      }
    }
  }

  lemma NothingAfter(f: Digest, c: Cache, r: Request)
    requires !Updates(c, r)
    ensures After(f, c, r) == c
  {
  }

  /** After any requests, the reply to the next one, and whether it changes the password, are what the changes made so
      far say: the cache of the server, with its eviction, is that list's last 4096 entries. */
  lemma RepliesAre(f: Digest, rs: seq<Request>, r: Request)
    ensures Reply(f, CacheAfter(f, rs), r) == ReplyTo(f, Done(f, rs), r)
    ensures Updates(CacheAfter(f, rs), r) <==> Changes(f, Done(f, rs), r)
  {
    hide *;
    AlwaysRecalls(f, rs);
    RepliesAgree(f, CacheAfter(f, rs), Done(f, rs), r);
  }

  /** The change at this place is one of the last 4096 and has the key. */
  predicate IsAt(done: seq<Change>, i: int, k: string) {
    0 <= i < |done| && |done| - 4096 <= i && done[i].user + "\n" + done[i].requestId == k
  }

  lemma {:induction false} FindIsAt(done: seq<Change>, n: nat, k: string)
    requires Find(done, n, k).Some?
    ensures exists i :: 0 <= i < |done| && |done| - n <= i && done[i].user + "\n" + done[i].requestId == k
                        && Find(done, n, k).value == done[i]
    decreases |done|
  {
    var m := |done| - 1;
    if done[m].user + "\n" + done[m].requestId != k {
      FindIsAt(done[..m], n - 1, k);
      var i :| 0 <= i < m && m - (n - 1) <= i && done[..m][i].user + "\n" + done[..m][i].requestId == k
               && Find(done[..m], n - 1, k).value == done[..m][i];
      assert done[i] == done[..m][i];
    }
  }

  lemma KeyIsLast(done: seq<Change>, i: int, k: string)
    requires IsAt(done, i, k)
    ensures var l, skipped := Last(Keys(done), 4096), if |done| <= 4096 then 0 else |done| - 4096;
            |l| == |done| - skipped && skipped <= i && l[i - skipped] == k
  {
  }

  lemma AtMostOneAt(done: seq<Change>, i: int, j: int, k: string)
    requires Distinct(Last(Keys(done), 4096)) && IsAt(done, i, k) && IsAt(done, j, k)
    ensures i == j
  {
    hide Keys, Last;
    KeyIsLast(done, i, k);
    KeyIsLast(done, j, k);
  }

  /** The status of the reply to a well-made request after any others. */
  lemma StatusIff(f: Digest, rs: seq<Request>, r: Request)
    requires r.requestId.Some? && 1 <= |r.requestId.value| <= 128 && r.password.Some? && |r.password.value| == 6
    requires r.user != "" && !("C-" <= r.user) && !("web-" <= r.user)
    ensures var c, done, k := CacheAfter(f, rs), Done(f, rs), r.user + "\n" + r.requestId.value;
            var status := Reply(f, c, r).status;
            && (status == Succeeded <==>
                  Updates(c, r) || exists i :: IsAt(done, i, k) && done[i].fingerprint == f(r.password.value))
            && (Updates(c, r) <==> r.stores && !exists i :: IsAt(done, i, k))
            && (status == UpdateFailed <==> !r.stores && !exists i :: IsAt(done, i, k))
            && (status == AlreadyUsed <==> exists i :: IsAt(done, i, k) && done[i].fingerprint != f(r.password.value))
  {
    RepliesAre(f, rs, r);
    AlwaysRecalls(f, rs);
    var done, k := Done(f, rs), r.user + "\n" + r.requestId.value;
    assert Distinct(Last(Keys(done), 4096));
    FindIff(done, 4096, k);
    hide Find, Keys, Last, Distinct, Done, CacheAfter, Reply, Recalls, Updates;
    if Find(done, 4096, k).Some? {
      FindIsAt(done, 4096, k);
      var i :| IsAt(done, i, k) && Find(done, 4096, k).value == done[i];
      forall j | IsAt(done, j, k)
        ensures i == j
      {
        AtMostOneAt(done, i, j, k);
      }
    }
    forall j
      ensures IsAt(done, j, k) ==> k in Last(Keys(done), 4096)
    {
      if IsAt(done, j, k) {
        KeyIsLast(done, j, k);
      }
    }
  }

  // ---- the key ----------------------------------------------------------------------------

  /** Two requests share a key exactly when user and request id are the same, or when one user's id is the other's
      followed by a line break and more, and the request ids make up for the difference. */
  lemma KeysAgreeIff(u: Id, q: string, u': Id, q': string)
    requires |u| <= |u'|
    ensures Key(u, q) == Key(u', q')
       <==> (u == u' && q == q') || (u + "\n" <= u' && q == u'[|u| + 1..] + "\n" + q')
  {
    var k, k' := Key(u, q), Key(u', q');
    assert k[..|u|] == u && k'[..|u'|] == u' && k[|u| + 1..] == q;
    if |u| == |u'| {
      assert k'[|u| + 1..] == q';
    } else {
      var rest := u'[|u| + 1..] + "\n" + q';
      assert k'[|u| + 1..] == rest;
      if u + "\n" <= u' && q == rest {
        assert u' == u + "\n" + u'[|u| + 1..];
      }
      if k == k' {
        assert (u + "\n")[|u|] == k'[|u|] == u'[|u|];
      }
    }
  }

  lemma BreakInside(v: Id, w: Id)
    requires v + "\n" <= w
    ensures '\n' in w
  {
    assert (v + "\n")[|v|] == w[|v|];
  }

  lemma NoBreakInside(v: Id, w: Id)
    requires '\n' !in w
    ensures !(v + "\n" <= w)
  {
    if v + "\n" <= w {
      BreakInside(v, w);
    }
  }

  /** Users without line breaks in their ids never share a key. */
  lemma KeyIsInjective(u: Id, q: string, u': Id, q': string)
    requires '\n' !in u && '\n' !in u'
    ensures Key(u, q) == Key(u', q') <==> u == u' && q == q'
  {
    hide Key;
    if |u| <= |u'| {
      KeysAgreeIff(u, q, u', q');
    } else {
      KeysAgreeIff(u', q', u, q);
    }
    NoBreakInside(u, u');
    NoBreakInside(u', u);
  }

  /** A user with a line break in its id shares the key of each of its requests with another user. */
  lemma LineBreakShares(u: Id, q: string) returns (v: Id, p: string)
    requires '\n' in u
    ensures v != u && |v| < |u| && Key(v, p) == Key(u, q)
  {
    var i :| 0 <= i < |u| && u[i] == '\n';
    v, p := u[..i], u[i + 1..] + "\n" + q;
    assert v + "\n" <= u;
    KeysAgreeIff(v, p, u, q);
  }

  /** So a line break in some user's id is exactly what makes sharing possible. */
  lemma SharedKeyIff(u: Id, q: string)
    ensures (exists v: Id, p: string :: |v| < |u| && Key(v, p) == Key(u, q)) <==> '\n' in u
  {
    if '\n' in u {
      var v, p := LineBreakShares(u, q);
    }
    if v: Id, p: string :| |v| < |u| && Key(v, p) == Key(u, q) {
      KeysAgreeIff(v, p, u, q);
      assert (v + "\n")[|v|] == u[|v|];
    }
  }

  predicate AllDigits(s: string) {
    forall i :: 0 <= i < |s| ==> '0' <= s[i] <= '9'
  }

  predicate CloneMarkAt(u: Id, i: nat) {
    i + 2 <= |u| && u[i..i + 2] == "C-"
  }

  /** Who can be logged in: ids with "C-" in them log in as they are; all others are numbers the server gave out,
      browsers' with "web-" in front. */
  predicate CanLogIn(u: Id) {
    || (exists i :: 0 <= i < |u| && CloneMarkAt(u, i))
    || (u != "" && AllDigits(if "web-" <= u then u[4..] else u))
  }

  /** Users who can log in do share keys: a request of the device `number` is refused, though nobody made it before,
      after a user called `number`, line break, "C-..." changed its password under the same key. */
  lemma SharedKeyRefuses(f: Digest, number: Id, rest: string, q: string, password: string, other: string)
      returns (first: Request, second: Request)
    requires number != "" && AllDigits(number) && q != "" && |rest| + |q| + 3 <= MAX_REQUEST_ID
    requires |password| == |other| == PASSWORD_LENGTH && f(password) != f(other)
    ensures first.user != second.user && CanLogIn(first.user) && CanLogIn(second.user)
    ensures WellMade(second) && Updates(NOTHING, first)
    ensures Reply(f, CacheAfter(f, [first]), second).status == AlreadyUsed
  {
    var clone := "C-" + rest;
    first := Request(Some(q), number + "\n" + clone, Some(password), true);
    second := Request(Some(clone + "\n" + q), number, Some(other), true);
    NumberIsPlain(number, "\n" + clone);
    assert first.user == number + ("\n" + clone);
    assert CloneMarkAt(first.user, |number| + 1);
    assert Key(first.user, q) == Key(number, clone + "\n" + q);
    assert CacheAfter(f, []) == NOTHING;
    assert [] + [first] == [first] && [first] + [] == [first];
    hide Key, CacheAfter, Successes, Reply, CanLogIn;
    AtMostOnce(f, [], first, [], second);
  }

  lemma NumberIsPlain(number: Id, more: string)
    requires number != "" && AllDigits(number)
    ensures var u := number + more; !IsCloneClient(u) && !IsWebClient(u)
    ensures !IsCloneClient(number) && !IsWebClient(number) && CanLogIn(number)
  {
    assert (number + more)[0] == number[0];
    assert "C-"[0] == 'C' && "web-"[0] == 'w';
  }
}
