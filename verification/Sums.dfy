/** Sums over maps and sequences, with the laws the ledgers need: what one update does to a sum,
    and that a part is at most the whole. */
module Sums {
  ghost function Sum<K(!new), V(!new)>(m: map<K, V>, f: (K, V) -> int): int
    decreases |m|
  {
    if m == map[] then 0 else
      var k :| k in m;
      f(k, m[k]) + Sum(m - {k}, f)
  }

  /** Any key may be taken out first. */
  lemma {:induction false} Split<K(!new), V(!new)>(m: map<K, V>, f: (K, V) -> int, k: K)
    requires k in m
    ensures Sum(m, f) == f(k, m[k]) + Sum(m - {k}, f)
    decreases |m|
  {
    var first :| first in m && Sum(m, f) == f(first, m[first]) + Sum(m - {first}, f);
    if first != k {
      Split(m - {first}, f, k);
      Split(m - {k}, f, first);
      assert m - {first} - {k} == m - {k} - {first};
    }
  }

  lemma Update<K(!new), V(!new)>(m: map<K, V>, f: (K, V) -> int, k: K, v: V)
    ensures Sum(m[k := v], f) == Sum(m, f) + f(k, v) - (if k in m then f(k, m[k]) else 0)
  {
    Split(m[k := v], f, k);
    assert m[k := v] - {k} == m - {k};
    if k in m {
      Split(m, f, k);
    } else {
      assert m - {k} == m;
    }
  }

  lemma {:induction false} NonNegative<K(!new), V(!new)>(m: map<K, V>, f: (K, V) -> int)
    requires forall k :: k in m ==> f(k, m[k]) >= 0
    ensures Sum(m, f) >= 0
    decreases |m|
  {
    if m != map[] {
      var k :| k in m;
      Split(m, f, k);
      NonNegative(m - {k}, f);
    }
  }

  lemma PartBelowSum<K(!new), V(!new)>(m: map<K, V>, f: (K, V) -> int, k: K)
    requires k in m
    requires forall k, v :: f(k, v) >= 0
    ensures f(k, m[k]) <= Sum(m, f)
  {
    Split(m, f, k);
    NonNegative(m - {k}, f);
  }

  /** A sum whose terms agree on every entry is the same sum. */
  lemma {:induction false} Congruent<K(!new), V(!new)>(m: map<K, V>, f: (K, V) -> int, g: (K, V) -> int)
    requires forall k :: k in m ==> f(k, m[k]) == g(k, m[k])
    ensures Sum(m, f) == Sum(m, g)
    decreases |m|
  {
    if m != map[] {
      var k :| k in m;
      Split(m, f, k);
      Split(m, g, k);
      Congruent(m - {k}, f, g);
    }
  }

  /** Two maps with the same keys and the same terms have the same sum. */
  lemma {:induction false} SameTerms<K(!new), V(!new)>(m: map<K, V>, n: map<K, V>, f: (K, V) -> int)
    requires m.Keys == n.Keys
    requires forall k :: k in m ==> f(k, m[k]) == f(k, n[k])
    ensures Sum(m, f) == Sum(n, f)
    decreases |m|
  {
    if m == map[] {
      assert n == map[];
    } else {
      var k :| k in m;
      Split(m, f, k);
      Split(n, f, k);
      SameTerms(m - {k}, n - {k}, f);
    }
  }

  lemma {:induction false} AllZero<K(!new), V(!new)>(m: map<K, V>, f: (K, V) -> int)
    requires forall k :: k in m ==> f(k, m[k]) == 0
    ensures Sum(m, f) == 0
    decreases |m|
  {
    if m != map[] {
      var k :| k in m;
      Split(m, f, k);
      AllZero(m - {k}, f);
    }
  }

  lemma {:induction false} Below<K(!new), V(!new)>(m: map<K, V>, f: (K, V) -> int, g: (K, V) -> int)
    requires forall k :: k in m ==> f(k, m[k]) <= g(k, m[k])
    ensures Sum(m, f) <= Sum(m, g)
    decreases |m|
  {
    if m != map[] {
      var k :| k in m;
      Split(m, f, k);
      Split(m, g, k);
      Below(m - {k}, f, g);
    }
  }

  function SeqSum<T>(s: seq<T>, f: T -> int): int {
    if s == [] then 0 else SeqSum(s[..|s| - 1], f) + f(s[|s| - 1])
  }

  lemma {:induction false} SeqSumAppend<T>(s: seq<T>, t: seq<T>, f: T -> int)
    ensures SeqSum(s + t, f) == SeqSum(s, f) + SeqSum(t, f)
  {
    if t == [] {
      assert s + t == s;
    } else {
      SeqSumAppend(s, t[..|t| - 1], f);
      assert (s + t)[..|s + t| - 1] == s + t[..|t| - 1];
    }
  }

  lemma {:induction false} SeqSumPlus<T>(s: seq<T>, h: T -> int, f: T -> int, g: T -> int)
    requires forall x :: x in s ==> h(x) == f(x) + g(x)
    ensures SeqSum(s, h) == SeqSum(s, f) + SeqSum(s, g)
  {
    if s != [] {
      SeqSumPlus(s[..|s| - 1], h, f, g);
    }
  }

  lemma {:induction false} SeqSumSame<T>(s: seq<T>, f: T -> int, g: T -> int)
    requires forall x :: x in s ==> f(x) == g(x)
    ensures SeqSum(s, f) == SeqSum(s, g)
  {
    if s != [] {
      SeqSumSame(s[..|s| - 1], f, g);
    }
  }

  lemma {:induction false} SeqSumConstant<T>(s: seq<T>, f: T -> int, c: int)
    requires forall x :: x in s ==> f(x) == c
    ensures SeqSum(s, f) == |s| * c
  {
    if s == [] {
      assert 0 * c == 0;
    } else {
      SeqSumConstant(s[..|s| - 1], f, c);
      assert |s| * c == (|s| - 1) * c + c;
    }
  }
}
