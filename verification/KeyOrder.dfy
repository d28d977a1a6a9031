/** Storage keys: their order when a map is walked in ascending order, and the decimal keys that
    a counter produces. */
module KeyOrder {
  /** Lexicographic order. */
  predicate Less(a: string, b: string) {
    if b == "" then false
    else if a == "" then true
    else a[0] < b[0] || (a[0] == b[0] && Less(a[1..], b[1..]))
  }

  lemma {:induction false} Asymmetric(a: string, b: string)
    requires Less(a, b)
    ensures !Less(b, a) && a != b
  {
    if a != "" && a[0] == b[0] {
      Asymmetric(a[1..], b[1..]);
    }
  }

  lemma {:induction false} Transitive(a: string, b: string, c: string)
    requires Less(a, b) && Less(b, c)
    ensures Less(a, c)
  {
    if a != "" && a[0] == b[0] == c[0] {
      Transitive(a[1..], b[1..], c[1..]);
    }
  }

  lemma {:induction false} Connected(a: string, b: string)
    ensures a == b || Less(a, b) || Less(b, a)
  {
    if a != "" && b != "" && a[0] == b[0] {
      Connected(a[1..], b[1..]);
      assert a == [a[0]] + a[1..] && b == [b[0]] + b[1..];
    }
  }

  predicate IsFirst(m: string, keys: set<string>) {
    m in keys && forall k :: k in keys ==> k == m || Less(m, k)
  }

  lemma {:induction false} FirstExists(keys: set<string>)
    requires keys != {}
    ensures exists m :: IsFirst(m, keys)
  {
    var some :| some in keys;
    if keys == {some} {
      assert IsFirst(some, keys);
    } else {
      FirstExists(keys - {some});
      var m :| IsFirst(m, keys - {some});
      Connected(some, m);
      if Less(some, m) {
        forall k | k in keys ensures k == some || Less(some, k) {
          if k != some && k != m { Transitive(some, m, k); }
        }
        assert IsFirst(some, keys);
      } else {
        assert IsFirst(m, keys);
      }
    }
  }

  lemma FirstIsUnique(keys: set<string>)
    ensures forall m, n :: IsFirst(m, keys) && IsFirst(n, keys) ==> m == n
  {
    forall m, n | IsFirst(m, keys) && IsFirst(n, keys) ensures m == n {
      if Less(m, n) { Asymmetric(m, n); }
    }
  }

  /** The keys of a storage map in ascending order. */
  function Ascending(keys: set<string>): (r: seq<string>)
    ensures forall k :: k in r <==> k in keys
  {
    if keys == {} then [] else
      FirstExists(keys);
      FirstIsUnique(keys);
      var m :| IsFirst(m, keys);
      [m] + Ascending(keys - {m})
  }

  predicate Sorted(s: seq<string>) {
    forall i, j :: 0 <= i < j < |s| ==> Less(s[i], s[j])
  }

  lemma {:induction false} AscendingSorted(keys: set<string>)
    ensures Sorted(Ascending(keys))
  {
    if keys != {} {
      var r := Ascending(keys);
      FirstExists(keys);
      FirstIsUnique(keys);
      AscendingSorted(keys - {r[0]});
      assert r[1..] == Ascending(keys - {r[0]});
      forall i, j | 0 <= i < j < |r| ensures Less(r[i], r[j]) {
        assert r[j] == r[1..][j - 1] && r[j] in r[1..];
        if i > 0 {
          assert r[i] == r[1..][i - 1];
        }
      }
    }
  }

  /** A walk over the keys meets each of them once. */
  lemma AscendingFresh(keys: set<string>, i: nat)
    requires i < |Ascending(keys)|
    ensures Ascending(keys)[i] !in Ascending(keys)[..i]
    ensures Ascending(keys)[i] in keys
  {
    AscendingSorted(keys);
    var r := Ascending(keys);
    forall j | 0 <= j < i ensures r[j] != r[i] {
      Asymmetric(r[j], r[i]);
    }
  }

  lemma {:induction false} AscendingLength(keys: set<string>)
    ensures |Ascending(keys)| == |keys|
  {
    if keys != {} {
      FirstExists(keys);
      FirstIsUnique(keys);
      var r := Ascending(keys);
      assert r[0] in r;
      AscendingLength(keys - {r[0]});
    }
  }

  const DIGITS := "0123456789"

  /** The decimal rendering of a counter. */
  function Decimal(n: nat): (r: string)
    ensures |r| > 0
  {
    if n < 10 then [DIGITS[n]] else Decimal(n / 10) + [DIGITS[n % 10]]
  }

  /** Different counters have different renderings. */
  lemma {:induction false} DecimalInjective(m: nat, n: nat)
    requires Decimal(m) == Decimal(n)
    ensures m == n
  {
    var r := Decimal(m);
    assert r[|r| - 1] == DIGITS[m % 10] == DIGITS[n % 10];
    DigitsDiffer(m % 10, n % 10);
    if m >= 10 && n >= 10 {
      assert r[..|r| - 1] == Decimal(m / 10) == Decimal(n / 10);
      DecimalInjective(m / 10, n / 10);
    }
  }

  lemma DigitsDiffer(i: nat, j: nat)
    requires i < 10 && j < 10 && DIGITS[i] == DIGITS[j]
    ensures i == j
  {
  }
}
