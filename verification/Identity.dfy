/** Device and user identifiers, and the websocket handles the server routes to. */
module Identity {

  /** A device, user or transmission id. The empty id is the source's "no such user". */
  type Id = string

  /** A connection handle: a weak pointer compared by owner. `NoOwner` is the handle that never
      had a connection; it is distinct from every real connection. */
  datatype Handle = NoOwner | Conn(key: nat)

  /** Two handles denote the same live-or-dead connection; a handle without an owner denotes none. */
  predicate SameConnection(a: Handle, b: Handle) {
    a.Conn? && b.Conn? && a == b
  }

  predicate HasPrefix(s: string, p: string) {
    p <= s
  }

  predicate IsWebClient(d: Id) {
    HasPrefix(d, "web-")
  }

  predicate IsCloneClient(d: Id) {
    HasPrefix(d, "C-")
  }

  predicate IsTrackedDevice(d: Id) {
    !IsWebClient(d) && !IsCloneClient(d)
  }

  /** A controller identity "C-x" is accounted to device x. */
  function Normalize(d: Id): Id {
    if IsCloneClient(d) then d[2..] else d
  }

  /** Which device an id is accounted to: a controller "C-x" to x, anybody else to itself. */
  predicate AccountedTo(id: Id, device: Id) {
    id == "C-" + device || (id == device && !("C-" <= id))
  }

  /** `Normalize` finds the one device that an id is accounted to. */
  lemma NormalizeMeans(id: Id, device: Id)
    ensures Normalize(id) == device <==> AccountedTo(id, device)
    ensures Normalize("C-" + device) == device && (!("C-" <= device) ==> Normalize(device) == device)
  {
    assert "C-" <= id ==> id == "C-" + id[2..];
    assert ("C-" + device)[2..] == device;
  }

  function Max0(x: int): nat {
    if x > 0 then x else 0
  }

  function Min(a: int, b: int): int {
    if a <= b then a else b
  }

  function Max(a: int, b: int): int {
    if a >= b then a else b
  }

  // ---- ids on their way to the database -----------------------------------------------------

  const NUL := '\0'

  predicate NoNul(s: string) {
    NUL !in s
  }

  /** What of a text reaches the database. It is bound as a C string, so it ends before its first NUL character; the
      objects in memory keep the whole text. */
  function Stored(s: string): (r: string)
    ensures r <= s && NoNul(r) && (|r| < |s| ==> s[|r|] == NUL)
    ensures NoNul(s) ==> r == s
  {
    if s == "" || s[0] == NUL then "" else [s[0]] + Stored(s[1..])
  }

  lemma StoredHead(c: char, s: string)
    ensures Stored([c] + s) == (if c == NUL then "" else [c] + Stored(s))
    ensures NoNul([c] + s) <==> c != NUL && NoNul(s)
  {
    assert ([c] + s)[1..] == s;
    assert NUL in [c] + s <==> c == NUL || NUL in s;
  }

  lemma StoredPrefix(s: string, p: string)
    requires NoNul(p)
    ensures HasPrefix(Stored(s), p) <==> HasPrefix(s, p)
  {
    hide Stored;
    assert forall i :: 0 <= i < |p| ==> p[i] != NUL;
  }

  /** Cutting an id keeps its kind ... */
  lemma StoredKind(d: Id)
    ensures IsCloneClient(Stored(d)) == IsCloneClient(d) && IsWebClient(Stored(d)) == IsWebClient(d)
    ensures IsTrackedDevice(Stored(d)) == IsTrackedDevice(d)
  {
    hide Stored;
    StoredPrefix(d, "C-");
    StoredPrefix(d, "web-");
  }

  /** ... and it does not matter whether the controller's prefix is taken off before or after. */
  lemma StoredNormalize(d: Id)
    ensures Stored(Normalize(d)) == Normalize(Stored(d))
    ensures NoNul(d) ==> NoNul(Normalize(d))
  {
    StoredKind(d);
    if IsCloneClient(d) {
      assert d[1..][1..] == d[2..] && Stored(d)[1..][1..] == Stored(d)[2..];
      assert Stored(d) == [d[0]] + ([d[1]] + Stored(d[2..]));
    }
  }
}
