/** Strictly sorted sequences: what std::sort followed by std::unique leaves. */
module Orders {

  ghost predicate StrictOrder<T(!new)>(less: (T, T) -> bool) {
    && (forall a :: !less(a, a))
    && (forall a, b, c :: less(a, b) && less(b, c) ==> less(a, c))
    && (forall a, b :: a == b || less(a, b) || less(b, a))
  }

  predicate StrictlySorted<T>(s: seq<T>, less: (T, T) -> bool) {
    forall i, j :: 0 <= i < j < |s| ==> less(s[i], s[j])
  }

  lemma Concat<T>(a: seq<T>, b: seq<T>, c: seq<T>)
    ensures a + b + c == a + (b + c)
  {
  }

  lemma SplitLast<T>(s: seq<T>)
    requires s != []
    ensures s == s[..|s| - 1] + [s[|s| - 1]]
    ensures forall x :: x in s <==> x in s[..|s| - 1] || x == s[|s| - 1]
  {
  }

  predicate Distinct<T(==)>(s: seq<T>) {
    forall i, j :: 0 <= i < j < |s| ==> s[i] != s[j]
  }

  lemma DistinctMore<T>(s: seq<T>, x: T)
    requires Distinct(s) && x !in s
    ensures Distinct(s + [x])
  {
  }

  function Elements<T(==)>(s: seq<T>): set<T> {
    set x | x in s
  }

  lemma HasElement<T(!new)>(s: seq<T>)
    ensures s == [] || exists x :: x in s
  {
    if s != [] {
      assert s[0] in s;
    }
  }

  lemma HeadIsLeast<T(!new)>(s: seq<T>, less: (T, T) -> bool)
    requires s != [] && StrictlySorted(s, less)
    ensures forall x :: x in s[1..] ==> less(s[0], x)
    ensures forall x :: x in s <==> x == s[0] || x in s[1..]
  {
    assert s == [s[0]] + s[1..];
  }

  /** The sorted sequence of a set is unique, so it does not depend on the order the set was visited in. */
  lemma {:induction false} SortedIsUnique<T(!new)>(a: seq<T>, b: seq<T>, less: (T, T) -> bool)
    requires StrictOrder(less) && StrictlySorted(a, less) && StrictlySorted(b, less)
    requires forall x :: x in a <==> x in b
    ensures a == b
    decreases |a|
  {
    if a == [] {
      HasElement(b);
    } else {
      assert a[0] in b;
      HeadsAgree(a, b, less);
      HeadIsLeast(a, less);
      HeadIsLeast(b, less);
      SortedIsUnique(a[1..], b[1..], less);
      assert a == [a[0]] + a[1..] && b == [b[0]] + b[1..];
    }
  }

  lemma HeadsAgree<T(!new)>(a: seq<T>, b: seq<T>, less: (T, T) -> bool)
    requires StrictOrder(less) && StrictlySorted(a, less) && StrictlySorted(b, less) && a != [] && b != []
    requires forall x :: x in a <==> x in b
    ensures a[0] == b[0]
  {
    HeadIsLeast(a, less);
    HeadIsLeast(b, less);
    assert a[0] in b && b[0] in a;
  }

  /** Insertion into a sorted sequence, dropping a repeat. */
  function Insert<T(==)>(x: T, s: seq<T>, less: (T, T) -> bool): seq<T> {
    if s == [] || less(x, s[0]) then [x] + s
    else if x == s[0] then s
    else [s[0]] + Insert(x, s[1..], less)
  }

  lemma {:induction false} InsertSorts<T(!new)>(x: T, s: seq<T>, less: (T, T) -> bool)
    requires StrictOrder(less) && StrictlySorted(s, less)
    ensures StrictlySorted(Insert(x, s, less), less)
    ensures forall y :: y in Insert(x, s, less) <==> y == x || y in s
    decreases |s|
  {
    if s == [] || x == s[0] {
    } else if less(x, s[0]) {
      var r := [x] + s;
      forall i, j | 0 <= i < j < |r|
        ensures less(r[i], r[j])
      {
        if i == 0 && j > 1 {
          assert less(s[0], s[j - 1]);
        }
      }
    } else {
      var rest := Insert(x, s[1..], less);
      InsertSorts(x, s[1..], less);
      assert s == [s[0]] + s[1..];
      forall y | y in rest
        ensures less(s[0], y)
      {
        if y in s[1..] {
          var i :| 1 <= i < |s| && s[i] == y;
        }
      }
    }
  }

  /** std::sort and std::unique. */
  function SortUnique<T(==)>(s: seq<T>, less: (T, T) -> bool): seq<T> {
    if s == [] then [] else Insert(s[0], SortUnique(s[1..], less), less)
  }

  lemma {:induction false} SortUniqueSorts<T(!new)>(s: seq<T>, less: (T, T) -> bool)
    requires StrictOrder(less)
    ensures StrictlySorted(SortUnique(s, less), less)
    ensures forall y :: y in SortUnique(s, less) <==> y in s
    decreases |s|
  {
    if s != [] {
      SortUniqueSorts(s[1..], less);
      InsertSorts(s[0], SortUnique(s[1..], less), less);
      assert s == [s[0]] + s[1..];
    }
  }

  // ---- strings, compared as std::string compares them --------------------------------------

  predicate StringLess(a: string, b: string)
    decreases |a|
  {
    b != [] && (a == [] || a[0] < b[0] || (a[0] == b[0] && StringLess(a[1..], b[1..])))
  }

  /** Up to place k the two are the same; there the one ends or has the smaller character. */
  predicate PartsAt(a: string, b: string, k: nat) {
    k <= |a| && k < |b| && (forall i :: 0 <= i < k ==> a[i] == b[i]) && (k == |a| || a[k] < b[k])
  }

  ghost predicate Precedes(a: string, b: string) {
    exists k: nat :: PartsAt(a, b, k)
  }

  lemma PartsLater(a: string, b: string, k: nat)
    requires a != [] && b != []
    ensures PartsAt(a, b, k + 1) <==> a[0] == b[0] && PartsAt(a[1..], b[1..], k)
  {
    assert forall i :: 1 <= i < |a| && i < |b| ==> (a[i] == b[i] <==> a[1..][i - 1] == b[1..][i - 1]);
  }

  lemma {:induction false} StringLessMeans(a: string, b: string)
    ensures StringLess(a, b) <==> Precedes(a, b)
    decreases |a|
  {
    if b == [] {
    } else if a == [] || a[0] < b[0] {
      assert PartsAt(a, b, 0);
    } else {
      StringLessMeans(a[1..], b[1..]);
      if k: nat :| PartsAt(a[1..], b[1..], k) {
        PartsLater(a, b, k);
      }
      if k: nat :| PartsAt(a, b, k) {
        PartsLater(a, b, k - 1);
      }
    }
  }

  function ByText(): (string, string) -> bool {
    (a, b) => StringLess(a, b)
  }

  lemma {:induction false} StringLessIrreflexive(a: string)
    ensures !StringLess(a, a)
    decreases |a|
  {
    if a != [] {
      StringLessIrreflexive(a[1..]);
    }
  }

  lemma {:induction false} StringLessTransitive(a: string, b: string, c: string)
    requires StringLess(a, b) && StringLess(b, c)
    ensures StringLess(a, c)
    decreases |a|
  {
    if a != [] && a[0] == b[0] == c[0] {
      StringLessTransitive(a[1..], b[1..], c[1..]);
    }
  }

  lemma {:induction false} StringLessTotal(a: string, b: string)
    ensures a == b || StringLess(a, b) || StringLess(b, a)
    decreases |a|
  {
    if a != [] && b != [] && a[0] == b[0] {
      StringLessTotal(a[1..], b[1..]);
      assert a == [a[0]] + a[1..] && b == [b[0]] + b[1..];
    }
  }

  lemma ByTextOrders()
    ensures StrictOrder(ByText())
  {
    forall a: string
      ensures !StringLess(a, a)
    {
      StringLessIrreflexive(a);
    }
    forall a: string, b: string, c: string | StringLess(a, b) && StringLess(b, c)
      ensures StringLess(a, c)
    {
      StringLessTransitive(a, b, c);
    }
    forall a: string, b: string
      ensures a == b || StringLess(a, b) || StringLess(b, a)
    {
      StringLessTotal(a, b);
    }
  }
}
