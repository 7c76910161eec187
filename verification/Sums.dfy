/** Sums over finite sets, as SQL's SUM over the rows of a table. */
module Sums {

  ghost function Sum<K(!new)>(s: set<K>, f: K -> int): int {
    if s == {} then 0 else var k :| k in s; f(k) + Sum(s - {k}, f)
  }

  /** The order in which rows are visited does not matter. */
  lemma {:induction false} SumRemove<K(!new)>(s: set<K>, f: K -> int, k: K)
    requires k in s
    ensures Sum(s, f) == f(k) + Sum(s - {k}, f)
  {
    var c :| c in s && Sum(s, f) == f(c) + Sum(s - {c}, f);
    if c != k {
      SumRemove(s - {c}, f, k);
      SumRemove(s - {k}, f, c);
      assert s - {c} - {k} == s - {k} - {c};
    }
  }

  lemma {:induction false} SumCongruent<K(!new)>(s: set<K>, f: K -> int, g: K -> int)
    requires forall k :: k in s ==> f(k) == g(k)
    ensures Sum(s, f) == Sum(s, g)
  {
    SumShift(s, f, g, 0);
  }

  /** Raising every row by c raises the sum by c times the number of rows. */
  lemma {:induction false} SumShift<K(!new)>(s: set<K>, f: K -> int, g: K -> int, c: int)
    requires forall k :: k in s ==> g(k) == f(k) + c
    ensures Sum(s, g) == Sum(s, f) + c * |s|
  {
    if s != {} {
      var k :| k in s;
      SumRemove(s, f, k);
      SumRemove(s, g, k);
      SumShift(s - {k}, f, g, c);
      assert |s| == |s - {k}| + 1;
      assert c * |s| == c * |s - {k}| + c;
    }
  }

  lemma {:induction false} SumMonotone<K(!new)>(s: set<K>, f: K -> int, g: K -> int)
    requires forall k :: k in s ==> f(k) <= g(k)
    ensures Sum(s, f) <= Sum(s, g)
  {
    if s != {} {
      var k :| k in s;
      SumRemove(s, f, k);
      SumRemove(s, g, k);
      SumMonotone(s - {k}, f, g);
    }
  }

  lemma {:induction false} SumPlus<K(!new)>(s: set<K>, f: K -> int, g: K -> int, h: K -> int)
    requires forall k :: k in s ==> h(k) == f(k) + g(k)
    ensures Sum(s, h) == Sum(s, f) + Sum(s, g)
  {
    if s != {} {
      var k :| k in s;
      SumRemove(s, f, k);
      SumRemove(s, g, k);
      SumRemove(s, h, k);
      SumPlus(s - {k}, f, g, h);
    }
  }

  lemma SumAdd<K(!new)>(s: set<K>, f: K -> int, k: K)
    requires k !in s
    ensures Sum(s + {k}, f) == Sum(s, f) + f(k)
  {
    SumRemove(s + {k}, f, k);
    assert s + {k} - {k} == s;
  }

  /** Changing one row changes the sum by the change of that row. */
  lemma SumUpdate<K(!new)>(s: set<K>, f: K -> int, g: K -> int, k: K)
    requires k in s
    requires forall j :: j in s && j != k ==> f(j) == g(j)
    ensures Sum(s, g) == Sum(s, f) + g(k) - f(k)
  {
    SumRemove(s, f, k);
    SumRemove(s, g, k);
    SumCongruent(s - {k}, f, g);
  }

  lemma {:induction false} SumZero<K(!new)>(s: set<K>, f: K -> int)
    requires forall k :: k in s ==> f(k) == 0
    ensures Sum(s, f) == 0
  {
    if s != {} {
      var k :| k in s;
      SumRemove(s, f, k);
      SumZero(s - {k}, f);
    }
  }

  /** Rows that contribute nothing can be added. */
  lemma {:induction false} SumExtend<K(!new)>(s: set<K>, t: set<K>, f: K -> int)
    requires s <= t && forall k :: k in t - s ==> f(k) == 0
    ensures Sum(t, f) == Sum(s, f)
    decreases t
  {
    if t <= s {
      assert s == t;
    } else {
      var k :| k in t && k !in s;
      SumRemove(t, f, k);
      SumExtend(s, t - {k}, f);
    }
  }

  lemma {:induction false} SumSplit<K(!new)>(s: set<K>, part: set<K>, f: K -> int)
    requires part <= s
    ensures Sum(s, f) == Sum(part, f) + Sum(s - part, f)
    decreases part
  {
    if part == {} {
      assert s - part == s;
    } else {
      var k :| k in part;
      SumRemove(s, f, k);
      SumRemove(part, f, k);
      SumSplit(s - {k}, part - {k}, f);
      assert s - {k} - (part - {k}) == s - part;
    }
  }
}
