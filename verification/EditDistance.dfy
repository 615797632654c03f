/**
 The edit distance behind the fuzzy masker (`utils/utils.go`).

 `Dist` is the textbook recursion on the last element.  The rolling two-row table
 computes it, and it is the length of a shortest path of single edits, hence a metric.
 */
module EditDistance {

  function Cost<T(==)>(x: T, y: T): nat {
    if x == y then 0 else 1
  }

  function Min(x: nat, y: nat): nat {
    if y < x then y else x
  }

  function Init<T>(s: seq<T>): seq<T>
    requires s != []
  {
    s[..|s| - 1]
  }

  function Last<T>(s: seq<T>): T
    requires s != []
  {
    s[|s| - 1]
  }

  /** Edit distance, by recursion on the last elements. */
  function Dist<T(==)>(a: seq<T>, b: seq<T>): nat
    decreases |a| + |b|
  {
    if a == [] then |b|
    else if b == [] then |a|
    else Min(Min(Dist(Init(a), b) + 1, Dist(a, Init(b)) + 1),
             Dist(Init(a), Init(b)) + Cost(Last(a), Last(b)))
  }

  lemma SplitLast<T>(s: seq<T>)
    requires s != []
    ensures s == Init(s) + [Last(s)]
  {
  }

  /** The recursion of Dist, with the three smaller distances named. */
  lemma DistStep<T>(a: seq<T>, b: seq<T>, del: nat, ins: nat, sub: nat)
    requires a != [] && b != []
    requires del == Dist(Init(a), b) && ins == Dist(a, Init(b)) && sub == Dist(Init(a), Init(b))
    ensures Dist(a, b) == Min(Min(del + 1, ins + 1), sub + Cost(Last(a), Last(b)))
  {
  }

  // ---------- the metric laws ----------

  lemma {:induction false} DistBounds<T>(a: seq<T>, b: seq<T>)
    ensures Dist(a, b) <= (if |a| < |b| then |b| else |a|)
    ensures |a| - |b| <= Dist(a, b) && |b| - |a| <= Dist(a, b)
    decreases |a| + |b|
  {
    if a != [] && b != [] {
      DistBounds(Init(a), b);
      DistBounds(a, Init(b));
      DistBounds(Init(a), Init(b));
    }
  }

  lemma {:induction false} DistSymmetric<T>(a: seq<T>, b: seq<T>)
    ensures Dist(a, b) == Dist(b, a)
    decreases |a| + |b|
  {
    if a != [] && b != [] {
      DistSymmetric(Init(a), b);
      DistSymmetric(a, Init(b));
      DistSymmetric(Init(a), Init(b));
    }
  }

  lemma {:induction false} DistZeroIffEqual<T>(a: seq<T>, b: seq<T>)
    ensures Dist(a, b) == 0 <==> a == b
    decreases |a| + |b|
  {
    if a != [] && b != [] {
      DistZeroIffEqual(Init(a), Init(b));
      assert a == Init(a) + [Last(a)] && b == Init(b) + [Last(b)];
    }
  }

  lemma {:induction false} DistTriangle<T>(a: seq<T>, b: seq<T>, c: seq<T>)
    ensures Dist(a, c) <= Dist(a, b) + Dist(b, c)
    decreases |a| + |b| + |c|
  {
    DistBounds(a, b);
    DistBounds(b, c);
    DistBounds(a, c);
    if a != [] && b != [] && c != [] {
      if Dist(a, b) == Dist(Init(a), b) + 1 {
        DistTriangle(Init(a), b, c);
      } else if Dist(b, c) == Dist(b, Init(c)) + 1 {
        DistTriangle(a, b, Init(c));
      } else if Dist(a, b) == Dist(a, Init(b)) + 1 {
        if Dist(b, c) == Dist(Init(b), c) + 1 {
          DistTriangle(a, Init(b), c);
        } else {
          DistTriangle(a, Init(b), Init(c));
        }
      } else if Dist(b, c) == Dist(Init(b), c) + 1 {
        DistTriangle(Init(a), Init(b), c);
      } else {
        DistTriangle(Init(a), Init(b), Init(c));
      }
    }
  }

  // ---------- the shortest path of single edits ----------

  ghost predicate InsertedAt<T>(x: seq<T>, y: seq<T>, k: int, c: T) {
    0 <= k <= |x| && y == x[..k] + [c] + x[k..]
  }

  ghost predicate ReplacedAt<T>(x: seq<T>, y: seq<T>, k: int, c: T) {
    0 <= k < |x| && y == x[..k] + [c] + x[k + 1..]
  }

  /** y is x with one element inserted, deleted or replaced, at any position. */
  ghost predicate OneEdit<T(!new)>(x: seq<T>, y: seq<T>) {
    || (exists k, c :: InsertedAt(x, y, k, c))
    || (exists k, c :: InsertedAt(y, x, k, c))
    || (exists k, c :: ReplacedAt(x, y, k, c))
  }

  /** A sequence of texts, each one edit away from the one before. */
  ghost predicate EditPath<T(!new)>(path: seq<seq<T>>, a: seq<T>, b: seq<T>) {
    && path != [] && path[0] == a && Last(path) == b
    && forall i :: 0 <= i < |path| - 1 ==> OneEdit(path[i], path[i + 1])
  }

  lemma {:induction false} DistCommonSuffix<T>(x: seq<T>, y: seq<T>, s: seq<T>)
    ensures Dist(x + s, y + s) <= Dist(x, y)
    decreases |s|
  {
    if s == [] {
      assert x + s == x && y + s == y;
    } else {
      var x', y' := x + s, y + s;
      assert Init(x') == x + Init(s) && Init(y') == y + Init(s);
      assert Last(x') == Last(s) == Last(y');
      DistCommonSuffix(x, y, Init(s));
    }
  }

  /** Inserting one element moves a text by at most one. */
  lemma DistOneInsertion<T>(p: seq<T>, c: T, s: seq<T>)
    ensures Dist(p + s, p + [c] + s) <= 1
    ensures Dist(p + [c] + s, p + s) <= 1
  {
    DistZeroIffEqual(p, p);
    assert Init(p + [c]) == p;
    assert p == [] ==> Dist(p, p + [c]) == 1;
    DistCommonSuffix(p, p + [c], s);
    DistSymmetric(p + s, p + [c] + s);
  }

  lemma DistOneReplacement<T>(p: seq<T>, c: T, d: T, s: seq<T>)
    ensures Dist(p + [c] + s, p + [d] + s) <= 1
  {
    assert Init(p + [c]) == p == Init(p + [d]);
    DistStep(p + [c], p + [d], Dist(p, p + [d]), Dist(p + [c], p), Dist(p, p));
    DistZeroIffEqual(p, p);
    DistCommonSuffix(p + [c], p + [d], s);
  }

  lemma DistOneEdit<T(!new)>(x: seq<T>, y: seq<T>)
    requires OneEdit(x, y)
    ensures Dist(x, y) <= 1
  {
    if k, c :| InsertedAt(x, y, k, c) {
      assert x == x[..k] + x[k..];
      DistOneInsertion(x[..k], c, x[k..]);
    } else if k, c :| InsertedAt(y, x, k, c) {
      assert y == y[..k] + y[k..];
      DistOneInsertion(y[..k], c, y[k..]);
    } else if k, c :| ReplacedAt(x, y, k, c) {
      assert x == x[..k] + [x[k]] + x[k + 1..];
      DistOneReplacement(x[..k], x[k], c, x[k + 1..]);
    }
  }

  /** No path of single edits is shorter than the distance. */
  lemma {:induction false} DistIsLowerBound<T(!new)>(path: seq<seq<T>>, a: seq<T>, b: seq<T>)
    requires EditPath(path, a, b)
    ensures Dist(a, b) <= |path| - 1
    decreases |path|
  {
    if |path| == 1 {
      DistZeroIffEqual(a, b);
    } else {
      var m := path[1];
      assert EditPath(path[1..], m, b);
      DistIsLowerBound(path[1..], m, b);
      assert OneEdit(path[0], path[0 + 1]);
      DistOneEdit(a, m);
      DistTriangle(a, m, b);
    }
  }

  lemma OneEditExtends<T(!new)>(x: seq<T>, y: seq<T>, e: T)
    requires OneEdit(x, y)
    ensures OneEdit(x + [e], y + [e])
  {
    var x', y' := x + [e], y + [e];
    if k, c :| InsertedAt(x, y, k, c) {
      assert InsertedAt(x', y', k, c);
    } else if k, c :| InsertedAt(y, x, k, c) {
      assert InsertedAt(y', x', k, c);
    } else if k, c :| ReplacedAt(x, y, k, c) {
      assert ReplacedAt(x', y', k, c);
    }
  }

  ghost function AppendToAll<T>(path: seq<seq<T>>, c: T): seq<seq<T>> {
    seq(|path|, i requires 0 <= i < |path| => path[i] + [c])
  }

  lemma PathExtends<T(!new)>(path: seq<seq<T>>, a: seq<T>, b: seq<T>, c: T)
    requires EditPath(path, a, b)
    ensures EditPath(AppendToAll(path, c), a + [c], b + [c])
  {
    var p' := AppendToAll(path, c);
    forall i | 0 <= i < |p'| - 1 ensures OneEdit(p'[i], p'[i + 1]) {
      OneEditExtends(path[i], path[i + 1], c);
    }
  }

  lemma PathThen<T(!new)>(path: seq<seq<T>>, a: seq<T>, m: seq<T>, b: seq<T>)
    requires EditPath(path, a, m) && OneEdit(m, b)
    ensures EditPath(path + [b], a, b)
  {
  }

  lemma PathAfter<T(!new)>(a: seq<T>, m: seq<T>, path: seq<seq<T>>, b: seq<T>)
    requires OneEdit(a, m) && EditPath(path, m, b)
    ensures EditPath([a] + path, a, b)
  {
    var p' := [a] + path;
    forall i | 0 <= i < |p'| - 1 ensures OneEdit(p'[i], p'[i + 1]) {
      if i > 0 {
        assert OneEdit(path[i - 1], path[i - 1 + 1]);
      }
    }
  }

  lemma AppendIsOneEdit<T(!new)>(x: seq<T>, c: T)
    ensures OneEdit(x, x + [c]) && OneEdit(x + [c], x)
  {
    assert InsertedAt(x, x + [c], |x|, c);
  }

  /** A path of single edits whose length is the distance. */
  lemma {:induction false} ShortestPath<T(!new)>(a: seq<T>, b: seq<T>) returns (path: seq<seq<T>>)
    ensures EditPath(path, a, b) && |path| - 1 == Dist(a, b)
    decreases |a| + |b|
  {
    if a == [] && b == [] {
      path := [a];
    } else if a != [] && (b == [] || Dist(a, b) == Dist(Init(a), b) + 1) {
      path := ShortestPath(Init(a), b);
      SplitLast(a);
      AppendIsOneEdit(Init(a), Last(a));
      PathAfter(a, Init(a), path, b);
      path := [a] + path;
    } else if b != [] && (a == [] || Dist(a, b) == Dist(a, Init(b)) + 1) {
      path := ShortestPath(a, Init(b));
      SplitLast(b);
      AppendIsOneEdit(Init(b), Last(b));
      PathThen(path, a, Init(b), b);
      path := path + [b];
    } else {
      var p := ShortestPath(Init(a), Init(b));
      var x, y := Last(a), Last(b);
      PathExtends(p, Init(a), Init(b), x);
      path := AppendToAll(p, x);
      SplitLast(a);
      SplitLast(b);
      if x != y {
        var m := Init(b) + [x];
        assert ReplacedAt(m, b, |m| - 1, y);
        PathThen(path, a, m, b);
        path := path + [b];
      }
    }
  }

  /** The distance is the length of a shortest path of single edits. */
  lemma DistIsShortestPathLength<T(!new)>(a: seq<T>, b: seq<T>)
    ensures exists path :: EditPath(path, a, b) && |path| - 1 == Dist(a, b)
    ensures forall path :: EditPath(path, a, b) ==> Dist(a, b) <= |path| - 1
  {
    var shortest := ShortestPath(a, b);
    forall path | EditPath(path, a, b) ensures Dist(a, b) <= |path| - 1 {
      DistIsLowerBound(path, a, b);
    }
  }

  // ---------- the rolling two-row table ----------

  /** Smallest of the listed values, by a scan. */
  method MinInt(vals: seq<int>) returns (m: int)
    requires vals != []
    ensures exists k :: 0 <= k < |vals| && m == vals[k]
    ensures forall k :: 0 <= k < |vals| ==> m <= vals[k]
  {
    m := vals[0];
    for i := 1 to |vals|
      invariant exists k :: 0 <= k < i && m == vals[k]
      invariant forall k :: 0 <= k < i ==> m <= vals[k]
    {
      if vals[i] < m {
        m := vals[i];
      }
    }
  }

  /** One cell of the table over prefixes, in terms of its three neighbours. */
  lemma PrefixCell<T>(a: seq<T>, b: seq<T>, i: nat, j: nat, del: nat, ins: nat, sub: nat)
    requires 0 < i <= |a| && 0 < j <= |b|
    requires del == Dist(a[..i - 1], b[..j]) && ins == Dist(a[..i], b[..j - 1])
    requires sub == Dist(a[..i - 1], b[..j - 1])
    ensures Dist(a[..i], b[..j]) == Min(Min(del + 1, ins + 1), sub + Cost(a[i - 1], b[j - 1]))
  {
    assert Init(a[..i]) == a[..i - 1] && Init(b[..j]) == b[..j - 1];
    DistStep(a[..i], b[..j], del, ins, sub);
  }

  lemma LeastOfThree(v: int, x: nat, y: nat, z: nat)
    requires (exists k :: 0 <= k < 3 && v == [x, y, z][k]) && forall k :: 0 <= k < 3 ==> v <= [x, y, z][k]
    ensures v == Min(Min(x, y), z)
  {
    var three := [x, y, z];
    assert three[0] == x && three[1] == y && three[2] == z;
    assert v <= three[0] && v <= three[1] && v <= three[2];
  }

  /** The body of the inner loop: one cell from the cell above, the one to the left and the diagonal. */
  method CellValue<T(==)>(a: seq<T>, b: seq<T>, i: nat, j: nat, above: int, left: int, diagonal: int)
    returns (v: int)
    requires 0 < i <= |a| && 0 < j <= |b|
    requires above == Dist(a[..i - 1], b[..j]) && left == Dist(a[..i], b[..j - 1])
    requires diagonal == Dist(a[..i - 1], b[..j - 1])
    ensures v == Dist(a[..i], b[..j])
  {
    var cost := 0;
    if a[i - 1] != b[j - 1] {
      cost := 1;
    }
    var del := above + 1;
    var ins := left + 1;
    var sub := diagonal + cost;
    v := MinInt([del, ins, sub]);
    LeastOfThree(v, del, ins, sub);
    PrefixCell(a, b, i, j, above, left, diagonal);
  }

  /** row holds the distances from p to the first n prefixes of b. */
  ghost predicate IsRow<T>(row: seq<int>, p: seq<T>, b: seq<T>, n: nat) {
    n <= |row| == |b| + 1 && forall k :: 0 <= k < n ==> row[k] == Dist(p, b[..k])
  }

  /** The inner loop: the next row from the one above it. */
  method FillRow<T(==)>(a: seq<T>, b: seq<T>, i: nat, prev: array<int>, curr: array<int>)
    requires 0 < i <= |a| && prev != curr && curr.Length == |b| + 1
    requires IsRow(prev[..], a[..i - 1], b, |b| + 1)
    modifies curr
    ensures IsRow(curr[..], a[..i], b, |b| + 1)
  {
    curr[0] := i;
    for j := 1 to |b| + 1
      invariant prev[..] == old(prev[..])
      invariant IsRow(curr[..], a[..i], b, j)
    {
      assert prev[..][j] == prev[j] && prev[..][j - 1] == prev[j - 1] && curr[..][j - 1] == curr[j - 1];
      var v := CellValue(a, b, i, j, prev[j], curr[j - 1], prev[j - 1]);
      ghost var before := curr[..];
      curr[j] := v;
      assert curr[..] == before[j := v];
    }
  }

  /** The table keeps two rows and swaps them; what it returns is the distance. */
  method Levenshtein<T(==)>(a: seq<T>, b: seq<T>) returns (d: int)
    ensures d == Dist(a, b)
  {
    var la, lb := |a|, |b|;
    if la == 0 {
      return lb;
    }
    if lb == 0 {
      return la;
    }
    var prev := new int[lb + 1];
    var curr := new int[lb + 1];
    for j := 0 to lb + 1
      invariant forall k :: 0 <= k < j ==> prev[k] == k
    {
      prev[j] := j;
    }
    for i := 1 to la + 1
      invariant prev.Length == lb + 1 == curr.Length && prev != curr
      invariant fresh(prev) && fresh(curr)
      invariant IsRow(prev[..], a[..i - 1], b, lb + 1)
    {
      FillRow(a, b, i, prev, curr);
      prev, curr := curr, prev;
    }
    assert a[..la] == a && b[..lb] == b && prev[..][lb] == prev[lb];
    return prev[lb];
  }
}
