/** Small value types shared by the models. */
module Common {

  /** One octet of a Go byte slice. */
  type byte = b: int | 0 <= b < 256

  datatype Option<+T> = None | Some(value: T)

  datatype Result<+T> = Ok(value: T) | Err(error: string)

  function Max(a: int, b: int): (m: int)
    ensures m >= a && m >= b && (m == a || m == b)
  {
    if a >= b then a else b
  }

  function Min(a: int, b: int): (m: int)
    ensures m <= a && m <= b && (m == a || m == b)
  {
    if a <= b then a else b
  }
}

/** Positions in a concatenation of sequences. */
module Concatenation {

  lemma Assoc<T>(a: seq<T>, b: seq<T>, c: seq<T>)
    ensures (a + b) + c == a + (b + c)
  {
  }

  lemma DropPrefix<T>(a: seq<T>, b: seq<T>)
    ensures (a + b)[|a|..] == b
    ensures (a + b)[..|a|] == a
  {
  }

  function Flat<T>(rows: seq<seq<T>>): seq<T> {
    if rows == [] then [] else rows[0] + Flat(rows[1..])
  }

  lemma SplitAt<T>(s: seq<T>, i: nat)
    requires i < |s|
    ensures s == s[..i] + ([s[i]] + s[i + 1..])
  {
  }

  lemma FourParts<T>(a: seq<T>, b: seq<T>, c: seq<T>, d: seq<T>)
    ensures var s := a + b + c + d;
      && |s| == |a| + |b| + |c| + |d| && s == a + (b + c + d)
      && s[|a|..|a| + |b|] == b && s[|a| + |b|..|a| + |b| + |c|] == c && s[|a| + |b| + |c|..] == d
  {
  }

  lemma {:induction false} FlatSnoc<T>(rows: seq<seq<T>>, row: seq<T>)
    ensures Flat(rows + [row]) == Flat(rows) + row
  {
    if rows == [] {
      assert rows + [row] == [row] && [row][1..] == [];
    } else {
      assert (rows + [row])[1..] == rows[1..] + [row];
      FlatSnoc(rows[1..], row);
      Assoc(rows[0], Flat(rows[1..]), row);
    }
  }

  lemma {:induction false} FlatAppend<T>(a: seq<seq<T>>, b: seq<seq<T>>)
    ensures Flat(a + b) == Flat(a) + Flat(b)
  {
    if a == [] {
      assert a + b == b;
    } else {
      assert (a + b)[1..] == a[1..] + b;
      FlatAppend(a[1..], b);
      Assoc(a[0], Flat(a[1..]), Flat(b));
    }
  }

  /** Every element in a row of its own. */
  function Singles<T>(s: seq<T>): seq<seq<T>> {
    if s == [] then [] else [[s[0]]] + Singles(s[1..])
  }

  lemma {:induction false} FlatSingles<T>(s: seq<T>)
    ensures Flat(Singles(s)) == s && |Singles(s)| == |s| && forall i :: 0 <= i < |s| ==> |Singles(s)[i]| == 1
  {
    if s != [] {
      FlatSingles(s[1..]);
      assert Singles(s)[1..] == Singles(s[1..]);
    }
  }

  /** How many elements the first i rows have. */
  ghost function Before<T>(rows: seq<seq<T>>, i: nat): nat
    requires i <= |rows|
  {
    if i == 0 then 0 else Before(rows, i - 1) + |rows[i - 1]|
  }

  lemma {:induction false} BeforeTail<T>(rows: seq<seq<T>>, i: nat)
    requires 0 < i <= |rows|
    ensures Before(rows, i) == |rows[0]| + Before(rows[1..], i - 1)
  {
    if i > 1 {
      BeforeTail(rows, i - 1);
      assert rows[1..][i - 2] == rows[i - 1];
    }
  }

  lemma {:induction false} BeforeGrows<T>(rows: seq<seq<T>>, i: nat, j: nat)
    requires i < j <= |rows|
    ensures Before(rows, i) + |rows[i]| <= Before(rows, j)
  {
    if i + 1 < j { BeforeGrows(rows, i, j - 1); }
  }

  lemma {:induction false} Locate<T>(rows: seq<seq<T>>, p: nat) returns (i: nat, k: nat)
    requires p < |Flat(rows)|
    ensures i < |rows| && k < |rows[i]| && Flat(rows)[p] == rows[i][k] && p == Before(rows, i) + k
  {
    if p < |rows[0]| {
      i, k := 0, p;
    } else {
      i, k := Locate(rows[1..], p - |rows[0]|);
      i := i + 1;
      BeforeTail(rows, i);
    }
  }

  lemma {:induction false} Place<T>(rows: seq<seq<T>>, i: nat, k: nat)
    requires i < |rows| && k < |rows[i]|
    ensures Before(rows, i) + k < |Flat(rows)| && Flat(rows)[Before(rows, i) + k] == rows[i][k]
  {
    if i > 0 {
      Place(rows[1..], i - 1, k);
      BeforeTail(rows, i);
    }
  }
}

/** Elements found and removed by a key. */
module Search {

  /** Where the first element with this key is; the length if there is none. */
  function IndexOf<T, K(==)>(s: seq<T>, key: T -> K, x: K): (k: nat)
    ensures k <= |s| && (k < |s| ==> key(s[k]) == x)
    ensures forall i :: 0 <= i < k ==> key(s[i]) != x
  {
    if s == [] || key(s[0]) == x then 0 else 1 + IndexOf(s[1..], key, x)
  }

  lemma FirstIndex<T, K>(s: seq<T>, key: T -> K, x: K, k: nat)
    requires k <= |s| && (k < |s| ==> key(s[k]) == x)
    requires forall i :: 0 <= i < k ==> key(s[i]) != x
    ensures IndexOf(s, key, x) == k
  {
  }

  /** The sequence without its first element with this key. */
  function WithoutFirst<T, K(==)>(s: seq<T>, key: T -> K, x: K): seq<T> {
    var k := IndexOf(s, key, x);
    if k == |s| then s else s[..k] + s[k + 1..]
  }

  /** The sequence without every element with this key. */
  function Without<T, K(==)>(s: seq<T>, key: T -> K, x: K): seq<T> {
    if s == [] then [] else (if key(s[0]) == x then [] else [s[0]]) + Without(s[1..], key, x)
  }

  lemma {:induction false} WithoutAbsent<T, K>(s: seq<T>, key: T -> K, x: K)
    requires forall i :: 0 <= i < |s| ==> key(s[i]) != x
    ensures Without(s, key, x) == s
  {
    if s != [] { WithoutAbsent(s[1..], key, x); }
  }
}

/** Sequences without repetition, and rearrangements of them. */
module Distinctness {

  ghost predicate Distinct<T>(s: seq<T>) { forall i, j :: 0 <= i < j < |s| ==> s[i] != s[j] }

  lemma DistinctTail<T>(s: seq<T>)
    requires s != [] && Distinct(s)
    ensures Distinct(s[1..]) && s[0] !in s[1..]
  {
  }

  lemma MultisetCons<T>(x: T, s: seq<T>)
    ensures multiset([x] + s) == multiset{x} + multiset(s)
  {
  }

  lemma MultisetSplit<T>(s: seq<T>)
    requires s != []
    ensures multiset(s) == multiset{s[0]} + multiset(s[1..])
  {
    assert s == [s[0]] + s[1..];
  }

  lemma MultisetShuffle<T>(x: multiset<T>, a: multiset<T>, b: multiset<T>)
    ensures (x + a) + b == x + (a + b) && a + (x + b) == x + (a + b)
  {
  }

  lemma SameMembers<T>(a: seq<T>, b: seq<T>)
    requires multiset(a) == multiset(b)
    ensures |a| == |b| && forall i :: 0 <= i < |a| ==> a[i] in b
  {
    assert |multiset(a)| == |a| && |multiset(b)| == |b|;
    forall i | 0 <= i < |a| ensures a[i] in b {
      assert a[i] in multiset(a);
    }
  }

  lemma {:induction false} CountOnce<T>(s: seq<T>, x: T)
    requires Distinct(s)
    ensures multiset(s)[x] <= 1
  {
    if s != [] {
      MultisetSplit(s);
      CountOnce(s[1..], x);
      if s[0] == x { assert forall j :: 0 <= j < |s[1..]| ==> s[1..][j] == s[j + 1]; assert x !in s[1..]; }
    }
  }

  lemma {:induction false} CountDistinct<T>(s: seq<T>)
    requires forall x :: multiset(s)[x] <= 1
    ensures Distinct(s)
  {
    if s != [] {
      MultisetSplit(s);
      assert multiset(s)[s[0]] == 1 + multiset(s[1..])[s[0]];
      assert s[0] !in multiset(s[1..]);
      forall x ensures multiset(s[1..])[x] <= 1 { assert multiset(s[1..])[x] <= multiset(s)[x]; }
      CountDistinct(s[1..]);
      assert forall j :: 1 <= j < |s| ==> s[j] == s[1..][j - 1];
    }
  }

  lemma DistinctRearranged<T>(a: seq<T>, b: seq<T>)
    requires Distinct(a) && multiset(a) == multiset(b)
    ensures Distinct(b)
  {
    forall x ensures multiset(b)[x] <= 1 { CountOnce(a, x); }
    CountDistinct(b);
  }
}

/** A bounded buffer that drops its oldest elements: by count, by total weight, or both. */
module Eviction {
  import opened Common
  import opened Concatenation

  datatype Bound = Bound(items: Option<nat>, total: int)

  function Total<T>(s: seq<T>, weight: T -> nat): nat {
    if s == [] then 0 else weight(s[0]) + Total(s[1..], weight)
  }

  predicate Within<T>(s: seq<T>, weight: T -> nat, bound: Bound) {
    (bound.items.Some? ==> |s| <= bound.items.value) && Total(s, weight) <= bound.total
  }

  function Evict<T>(s: seq<T>, weight: T -> nat, bound: Bound): seq<T> {
    if s == [] || Within(s, weight, bound) then s else Evict(s[1..], weight, bound)
  }

  lemma {:induction false} TotalAppend<T>(a: seq<T>, b: seq<T>, weight: T -> nat)
    ensures Total(a + b, weight) == Total(a, weight) + Total(b, weight)
  {
    if a == [] {
      assert a + b == b;
    } else {
      assert (a + b)[1..] == a[1..] + b;
      TotalAppend(a[1..], b, weight);
    }
  }

  lemma TotalOne<T>(x: T, weight: T -> nat)
    ensures Total([x], weight) == weight(x)
  {
    assert [x][1..] == [];
  }

  lemma TotalSnoc<T>(s: seq<T>, x: T, weight: T -> nat)
    ensures Total(s + [x], weight) == Total(s, weight) + weight(x)
  {
    TotalAppend(s, [x], weight);
    TotalOne(x, weight);
  }

  lemma TotalSplit<T>(s: seq<T>, i: nat, weight: T -> nat)
    requires i < |s|
    ensures Total(s, weight) == Total(s[..i], weight) + weight(s[i]) + Total(s[i + 1..], weight)
  {
    hide Total;
    SplitAt(s, i);
    TotalAppend(s[..i], [s[i]] + s[i + 1..], weight);
    TotalAppend([s[i]], s[i + 1..], weight);
    TotalOne(s[i], weight);
  }

  lemma TotalWithout<T>(s: seq<T>, i: nat, weight: T -> nat)
    requires i < |s|
    ensures Total(s[..i] + s[i + 1..], weight) == Total(s, weight) - weight(s[i]) && Total(s, weight) >= weight(s[i])
  {
    TotalSplit(s, i, weight);
    TotalAppend(s[..i], s[i + 1..], weight);
  }

  lemma TotalReplaced<T>(s: seq<T>, i: nat, x: T, weight: T -> nat)
    requires i < |s|
    ensures Total(s[i := x], weight) == Total(s, weight) - weight(s[i]) + weight(x) && Total(s, weight) >= weight(s[i])
  {
    TotalSplit(s, i, weight);
    TotalSplit(s[i := x], i, weight);
    assert s[i := x][..i] == s[..i] && s[i := x][i + 1..] == s[i + 1..];
  }

  /** Eviction keeps the longest run of newest elements within the bound. */
  lemma {:induction false} LongestSuffix<T>(s: seq<T>, weight: T -> nat, bound: Bound) returns (n: nat)
    requires bound.total >= 0
    ensures n <= |s| && Evict(s, weight, bound) == s[n..] && Within(s[n..], weight, bound)
    ensures forall m :: 0 <= m < n ==> !Within(s[m..], weight, bound)
  {
    if s == [] || Within(s, weight, bound) {
      n := 0;
      assert s[0..] == s;
    } else {
      n := LongestSuffix(s[1..], weight, bound);
      assert s[0..] == s && s[1..][n..] == s[n + 1..];
      n := n + 1;
      forall m | 0 <= m < n ensures !Within(s[m..], weight, bound) {
        if m > 0 { assert s[m..] == s[1..][m - 1..]; }
      }
    }
  }

  /** The newest element survives exactly if it is within the bound by itself. */
  lemma NewestSurvives<T>(s: seq<T>, x: T, weight: T -> nat, bound: Bound)
    requires bound.total >= 0
    ensures var r := Evict(s + [x], weight, bound);
      (r != [] && r[|r| - 1] == x && |r| > 0) <==> Within([x], weight, bound)
    ensures !Within([x], weight, bound) ==> Evict(s + [x], weight, bound) == []
  {
    var all := s + [x];
    var n := LongestSuffix(all, weight, bound);
    assert all[|s|..] == [x];
    if n <= |s| { Heavier(all[n..], x, weight, bound); }
  }

  /** A buffer within the bound holds its last element within the bound. */
  lemma Heavier<T>(s: seq<T>, x: T, weight: T -> nat, bound: Bound)
    requires s != [] && s[|s| - 1] == x && Within(s, weight, bound)
    ensures Within([x], weight, bound)
  {
    assert s == s[..|s| - 1] + [x];
    TotalSnoc(s[..|s| - 1], x, weight);
    TotalOne(x, weight);
  }
}
