/** Calendar-day keys (`"YYYY-MM-DD"`, the text of an ISO timestamp before
    its `T`), their order, and the descending sort the dashboard applies with
    `sort((a, b) => b.localeCompare(a))`. */
module DateKeys {

  /** `a.localeCompare(b) <= 0`, taken as code-unit lexicographic order, which
      on `YYYY-MM-DD` keys is chronological order. */
  predicate LexLe(a: string, b: string)
    decreases |a|
  {
    |a| == 0 || (|b| > 0 && (a[0] < b[0] || (a[0] == b[0] && LexLe(a[1..], b[1..]))))
  }

  /** `a.localeCompare(b) < 0` */
  predicate LexLt(a: string, b: string) {
    !LexLe(b, a)
  }

  lemma {:induction false} LexLeTotal(a: string, b: string)
    ensures LexLe(a, b) || LexLe(b, a)
    decreases |a|
  {
    if |a| > 0 && |b| > 0 && a[0] == b[0] {
      LexLeTotal(a[1..], b[1..]);
    }
  }

  lemma {:induction false} LexLeTransitive(a: string, b: string, c: string)
    requires LexLe(a, b) && LexLe(b, c)
    ensures LexLe(a, c)
    decreases |a|
  {
    if |a| > 0 && a[0] == b[0] && b[0] == c[0] {
      LexLeTransitive(a[1..], b[1..], c[1..]);
    }
  }

  lemma {:induction false} LexLeAntisymmetric(a: string, b: string)
    requires LexLe(a, b) && LexLe(b, a)
    ensures a == b
    decreases |a|
  {
    if |a| > 0 {
      LexLeAntisymmetric(a[1..], b[1..]);
      assert a == [a[0]] + a[1..];
      assert b == [b[0]] + b[1..];
    }
  }

  /** `ts.split("T")[0]`: the text of `ts` before its first `T`, or all of it. */
  function DateKey(ts: string): (k: string)
    ensures |k| <= |ts| && k == ts[..|k|]
    ensures 'T' !in k
    ensures |k| < |ts| ==> ts[|k|] == 'T'
  {
    if |ts| == 0 || ts[0] == 'T' then "" else [ts[0]] + DateKey(ts[1..])
  }

  /** `xs` is ordered newest first by `key`. */
  ghost predicate SortedDesc<T>(xs: seq<T>, key: T -> string) {
    forall i, j :: 0 <= i < j < |xs| ==> LexLe(key(xs[j]), key(xs[i]))
  }

  /** Puts `x` into the newest-first list `xs`, after every element whose key
      is not older than its own. */
  function Insert<T>(x: T, xs: seq<T>, key: T -> string): seq<T> {
    if |xs| == 0 then [x]
    else if LexLt(key(xs[0]), key(x)) then [x] + xs
    else [xs[0]] + Insert(x, xs[1..], key)
  }

  /** `xs.sort((a, b) => key(b).localeCompare(key(a)))`, as a stable insertion
      sort. */
  function SortDesc<T>(xs: seq<T>, key: T -> string): seq<T> {
    if |xs| == 0 then [] else Insert(xs[|xs| - 1], SortDesc(xs[..|xs| - 1], key), key)
  }

  lemma {:induction false} InsertPermutes<T>(x: T, xs: seq<T>, key: T -> string)
    ensures multiset(Insert(x, xs, key)) == multiset(xs) + multiset{x}
    decreases |xs|
  {
    if |xs| > 0 && !LexLt(key(xs[0]), key(x)) {
      InsertPermutes(x, xs[1..], key);
      assert xs == [xs[0]] + xs[1..];
    }
  }

  lemma {:induction false} InsertSorted<T>(x: T, xs: seq<T>, key: T -> string)
    requires SortedDesc(xs, key)
    ensures SortedDesc(Insert(x, xs, key), key)
    decreases |xs|
  {
    var r := Insert(x, xs, key);
    if |xs| == 0 {
    } else if LexLt(key(xs[0]), key(x)) {
      LexLeTotal(key(xs[0]), key(x));
      forall i, j | 0 <= i < j < |r|
        ensures LexLe(key(r[j]), key(r[i]))
      {
        if i == 0 {
          if j > 1 {
            LexLeTransitive(key(xs[j - 1]), key(xs[0]), key(x));
          }
        }
      }
    } else {
      var rest := Insert(x, xs[1..], key);
      InsertSorted(x, xs[1..], key);
      InsertPermutes(x, xs[1..], key);
      forall j | 0 <= j < |rest|
        ensures LexLe(key(rest[j]), key(xs[0]))
      {
        assert rest[j] in multiset(rest);
        if rest[j] != x {
          assert rest[j] in multiset(xs[1..]);
          var m :| 0 <= m < |xs[1..]| && xs[1..][m] == rest[j];
          assert xs[m + 1] == rest[j];
        } else {
          LexLeTotal(key(xs[0]), key(x));
        }
      }
      assert r == [xs[0]] + rest;
    }
  }

  /** The sort keeps every element, as often as it occurs. */
  lemma {:induction false} SortDescPermutes<T>(xs: seq<T>, key: T -> string)
    ensures multiset(SortDesc(xs, key)) == multiset(xs)
    decreases |xs|
  {
    if |xs| > 0 {
      var init := xs[..|xs| - 1];
      SortDescPermutes(init, key);
      InsertPermutes(xs[|xs| - 1], SortDesc(init, key), key);
      assert xs == init + [xs[|xs| - 1]];
    }
  }

  /** The sort orders newest first. */
  lemma {:induction false} SortDescSorted<T>(xs: seq<T>, key: T -> string)
    ensures SortedDesc(SortDesc(xs, key), key)
    decreases |xs|
  {
    if |xs| > 0 {
      SortDescSorted(xs[..|xs| - 1], key);
      InsertSorted(xs[|xs| - 1], SortDesc(xs[..|xs| - 1], key), key);
    }
  }

  /** `xs.slice(0, n)` */
  function Take<T>(xs: seq<T>, n: nat): (r: seq<T>)
    ensures |r| == if |xs| < n then |xs| else n
    ensures r == xs[..|r|]
  {
    if |xs| < n then xs else xs[..n]
  }

  /** The first `n` of the sorted elements are the `n` newest: they are sorted,
      they come from `xs`, and an element left out is not newer than any of
      them and is left out only when `n` were kept. */
  lemma TakeNewest<T>(xs: seq<T>, key: T -> string, n: nat)
    ensures var top := Take(SortDesc(xs, key), n);
      && SortedDesc(top, key)
      && (forall x :: x in top ==> x in xs)
      && (forall x :: x in xs && x !in top ==> |top| == n && forall i :: 0 <= i < n ==> LexLe(key(x), key(top[i])))
  {
    var sorted := SortDesc(xs, key);
    var top := Take(sorted, n);
    SortDescPermutes(xs, key);
    SortDescSorted(xs, key);
    forall x | x in top
      ensures x in xs
    {
      assert x in multiset(sorted);
    }
    forall x | x in xs && x !in top
      ensures |top| == n && forall i :: 0 <= i < n ==> LexLe(key(x), key(top[i]))
    {
      assert x in multiset(sorted);
      var m :| 0 <= m < |sorted| && sorted[m] == x;
      forall i | 0 <= i < n
        ensures LexLe(key(x), key(top[i]))
      {
        assert top[i] == sorted[i];
      }
    }
  }
}
