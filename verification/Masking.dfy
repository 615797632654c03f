/**
 Fuzzy masking of private words (`utils/utils.go`).

 The word loop with its sliding window and its skip marks exactly the union of all
 close windows, and the output loop prints each maximal marked run as one token.
 A Dafny `char` is a Unicode scalar value, as a Go rune of valid UTF-8 is.
 */
module Masking {
  import opened EditDistance

  const MASK := "********"

  // ---------- the words ----------

  /** Go's unicode.IsSpace. */
  predicate IsSpace(c: char) {
    || c in "\t\n\r \U{000B}\U{000C}\U{0085}\U{00A0}\U{1680}\U{2028}\U{2029}\U{202F}\U{205F}\U{3000}"
    || '\U{2000}' <= c <= '\U{200A}'
  }

  /** strings.TrimSpace. */
  function TrimSpace(w: string): (t: string) {
    if w == [] then w
    else if IsSpace(w[0]) then TrimSpace(w[1..])
    else if IsSpace(Last(w)) then TrimSpace(Init(w))
    else w
  }

  predicate AllSpace(s: string) {
    forall k :: 0 <= k < |s| ==> IsSpace(s[k])
  }

  /** A text without space at its ends. */
  predicate Trimmed(t: string) {
    t == [] || (!IsSpace(t[0]) && !IsSpace(Last(t)))
  }

  /** Trimming takes away exactly the space at both ends. */
  lemma {:induction false} TrimSpaceSplits(w: string) returns (a: string, b: string)
    ensures w == a + TrimSpace(w) + b && AllSpace(a) && AllSpace(b) && Trimmed(TrimSpace(w))
    decreases |w|
  {
    if w == [] || (!IsSpace(w[0]) && !IsSpace(Last(w))) {
      a, b := [], [];
      assert w == [] + w + [];
    } else if IsSpace(w[0]) {
      var front;
      front, b := TrimSpaceSplits(w[1..]);
      a := [w[0]] + front;
      LongerFront(w, front, TrimSpace(w[1..]), b);
    } else {
      var back;
      a, back := TrimSpaceSplits(Init(w));
      b := back + [Last(w)];
      LongerBack(w, a, TrimSpace(Init(w)), back);
    }
  }

  lemma LongerFront(w: string, a: string, t: string, b: string)
    requires w != [] && w[1..] == a + t + b
    ensures w == [w[0]] + a + t + b
  {
  }

  lemma LongerBack(w: string, a: string, t: string, b: string)
    requires w != [] && Init(w) == a + t + b
    ensures w == a + t + (b + [Last(w)])
  {
  }

  ghost function SetOf<T>(xs: seq<T>): set<T> {
    set x | x in xs
  }

  /** The words the masker looks for: trimmed, without the blank ones. */
  ghost function WordSet(private: seq<string>): set<string> {
    set w | w in private && TrimSpace(w) != [] :: TrimSpace(w)
  }

  method CollectWords(private: seq<string>) returns (words: seq<string>)
    ensures SetOf(words) == WordSet(private)
    ensures forall i, j :: 0 <= i < j < |words| ==> words[i] != words[j]
  {
    var uniq: set<string> := {};
    words := [];
    for n := 0 to |private|
      invariant uniq == SetOf(words)
      invariant uniq == WordSet(private[..n])
      invariant forall i, j :: 0 <= i < j < |words| ==> words[i] != words[j]
    {
      assert private[..n + 1] == private[..n] + [private[n]];
      var w := TrimSpace(private[n]);
      if w == [] || w in uniq {
        continue;
      }
      uniq := uniq + {w};
      words := words + [w];
    }
    assert private[..|private|] == private;
  }

  // ---------- the close windows ----------

  function MaxLen(a: string, b: string): nat {
    if |b| > |a| then |b| else |a|
  }

  /** The similarity test against the threshold 0.8, in exact arithmetic. */
  method Similarity(a: string, b: string) returns (s: real)
    ensures s >= 0.8 <==> 5 * Dist(a, b) <= MaxLen(a, b)
  {
    DistZeroIffEqual(a, b);
    if a == b {
      return 1.0;
    }
    var dist := Levenshtein(a, b);
    var maxLen := |a|;
    if |b| > maxLen {
      maxLen := |b|;
    }
    if maxLen == 0 {
      return 1.0;
    }
    s := 1.0 - dist as real / maxLen as real;
    RatioTest(dist, maxLen);
  }

  lemma RatioTest(d: nat, n: nat)
    requires n > 0
    ensures 1.0 - d as real / n as real >= 0.8 <==> 5 * d <= n
  {
    var q := d as real / n as real;
    assert q * n as real == d as real;
    var y := 5.0 * q;
    assert y * n as real == 5.0 * (q * n as real);
    ScaleTest(y, n as real);
  }

  lemma ScaleTest(y: real, n: real)
    requires n > 0.0
    ensures y * n <= n <==> y <= 1.0
  {
    assert y * n - n == (y - 1.0) * n;
  }

  /** The window of s at i is within the threshold of the word w. */
  ghost predicate Hit(s: string, w: string, i: int) {
    0 <= i <= |s| - |w| && 5 * Dist(s[i..i + |w|], w) <= |w|
  }

  /** Position k lies in a close window of one of the words. */
  ghost predicate Masked(s: string, words: set<string>, k: int) {
    exists w, i :: w in words && Hit(s, w, i) && i <= k < i + |w|
  }

  /** Close windows are those a few single edits away: at most a fifth of the word's length. */
  lemma HitIffFewEdits(s: string, w: string, i: int)
    requires 0 <= i <= |s| - |w|
    ensures Hit(s, w, i) <==> exists path :: EditPath(path, s[i..i + |w|], w) && 5 * (|path| - 1) <= |w|
  {
    DistIsShortestPathLength(s[i..i + |w|], w);
  }

  /** Every exact occurrence of a word that the masker looks for, whatever else is in the list, is hidden whole. */
  lemma ExactOccurrenceIsMasked(s: string, private: seq<string>, w: string, i: nat)
    requires w in WordSet(private)
    requires i + |w| <= |s| && s[i..i + |w|] == w
    ensures forall k :: i <= k < i + |w| ==> Masked(s, WordSet(private), k)
  {
    DistZeroIffEqual(s[i..i + |w|], w);
    assert Hit(s, w, i);
  }

  /** What the two loops have marked when word n is being tried at window i. */
  ghost predicate MaskedUpTo(s: string, words: seq<string>, n: nat, i: nat, k: int) {
    exists m, j :: 0 <= m < |words| && (m < n || (m == n && j < i))
                   && Hit(s, words[m], j) && j <= k < j + |words[m]|
  }

  lemma MaskedUpToNext(s: string, words: seq<string>, n: nat, i: nat, k: int)
    requires n < |words|
    ensures MaskedUpTo(s, words, n, i + 1, k) <==>
            MaskedUpTo(s, words, n, i, k) || (Hit(s, words[n], i) && i <= k < i + |words[n]|)
  {
    if m, j :| 0 <= m < |words| && (m < n || (m == n && j < i + 1))
               && Hit(s, words[m], j) && j <= k < j + |words[m]| {
      assert (m == n && j == i) || m < n || j < i;
    }
  }

  lemma MaskedUpToWordEnd(s: string, words: seq<string>, n: nat, i: nat, k: int)
    requires n < |words| && i > |s| - |words[n]|
    ensures MaskedUpTo(s, words, n, i, k) <==> MaskedUpTo(s, words, n + 1, 0, k)
  {
  }

  lemma MaskedUpToAll(s: string, words: seq<string>, k: int)
    ensures MaskedUpTo(s, words, |words|, 0, k) <==> Masked(s, SetOf(words), k)
  {
    var ws := SetOf(words);
    if w, i :| w in ws && Hit(s, w, i) && i <= k < i + |w| {
      var m :| 0 <= m < |words| && words[m] == w;
    }
  }

  method AllMasked(bools: seq<bool>) returns (all: bool)
    ensures all <==> forall k :: 0 <= k < |bools| ==> bools[k]
  {
    for i := 0 to |bools|
      invariant forall k :: 0 <= k < i ==> bools[k]
    {
      if !bools[i] {
        return false;
      }
    }
    return true;
  }

  /** The mask an input gets: the union of all close windows of all words. */
  ghost function MaskOf(s: string, words: set<string>): seq<bool> {
    seq(|s|, k => Masked(s, words, k))
  }

  /** One word tried at one window. */
  method TryWindow(s: string, words: seq<string>, n: nat, i: nat, toMask: array<bool>)
    requires n < |words| && toMask.Length == |s| && 0 <= i <= |s| - |words[n]|
    requires forall k :: 0 <= k < |s| ==> (toMask[k] <==> MaskedUpTo(s, words, n, i, k))
    modifies toMask
    ensures forall k :: 0 <= k < |s| ==> (toMask[k] <==> MaskedUpTo(s, words, n, i + 1, k))
  {
    var w := words[n];
    forall k | 0 <= k < |s| ensures MaskedUpTo(s, words, n, i + 1, k) <==>
        MaskedUpTo(s, words, n, i, k) || (Hit(s, w, i) && i <= k < i + |w|) {
      MaskedUpToNext(s, words, n, i, k);
    }
    var all := AllMasked(toMask[i..i + |w|]);
    if all {
      assert forall k :: i <= k < i + |w| ==> toMask[i..i + |w|][k - i] == toMask[k];
      return;
    }
    var sim := Similarity(s[i..i + |w|], w);
    if sim >= 0.8 {
      for j := 0 to |w|
        invariant forall k :: 0 <= k < |s| ==> toMask[k] == (old(toMask[k]) || i <= k < i + j)
      {
        toMask[i + j] := true;
      }
    }
  }

  method MarkWindows(s: string, words: seq<string>, toMask: array<bool>)
    requires toMask.Length == |s| && forall k :: 0 <= k < |s| ==> !toMask[k]
    requires forall w :: w in words ==> w != []
    modifies toMask
    ensures toMask[..] == MaskOf(s, SetOf(words))
  {
    for n := 0 to |words|
      invariant forall k :: 0 <= k < |s| ==> (toMask[k] <==> MaskedUpTo(s, words, n, 0, k))
    {
      var wl := |words[n]|;
      assert words[n] in words;
      if wl == 0 || wl > |s| {
        MarkedToWordEnd(s, words, n, 0);
        continue;
      }
      var i := 0;
      while i <= |s| - wl
        invariant 0 <= i <= |s| - wl + 1
        invariant forall k :: 0 <= k < |s| ==> (toMask[k] <==> MaskedUpTo(s, words, n, i, k))
      {
        TryWindow(s, words, n, i, toMask);
        i := i + 1;
      }
      MarkedToWordEnd(s, words, n, i);
    }
    forall k | 0 <= k < |s| ensures toMask[k] == Masked(s, SetOf(words), k) {
      MaskedUpToAll(s, words, k);
    }
  }

  lemma MarkedToWordEnd(s: string, words: seq<string>, n: nat, i: nat)
    requires n < |words| && i > |s| - |words[n]|
    ensures forall k :: MaskedUpTo(s, words, n, i, k) <==> MaskedUpTo(s, words, n + 1, 0, k)
  {
    forall k ensures MaskedUpTo(s, words, n, i, k) <==> MaskedUpTo(s, words, n + 1, 0, k) {
      MaskedUpToWordEnd(s, words, n, i, k);
    }
  }

  // ---------- the output ----------

  /** What one maximal masked run is printed as. */
  function Token(run: string): string {
    if |run| > 5 then [run[0]] + MASK + [Last(run)] else MASK
  }

  function RunLength(mask: seq<bool>): (n: nat)
    ensures n <= |mask| && (forall k :: 0 <= k < n ==> mask[k]) && (n < |mask| ==> !mask[n])
  {
    if mask == [] || !mask[0] then 0 else 1 + RunLength(mask[1..])
  }

  /** The printed text: unmasked characters as they are, each maximal masked run as one token. */
  function Render(s: string, mask: seq<bool>): string
    requires |s| == |mask|
    decreases |s|
  {
    if s == [] then []
    else if !mask[0] then [s[0]] + Render(s[1..], mask[1..])
    else var n := RunLength(mask); Token(s[..n]) + Render(s[n..], mask[n..])
  }

  lemma {:induction false} RunLengthOfConcat(m1: seq<bool>, m2: seq<bool>)
    requires m1 != [] ==> m2 != [] ==> !(Last(m1) && m2[0])
    requires m1 != []
    ensures RunLength(m1 + m2) == RunLength(m1)
  {
    assert (m1 + m2)[1..] == m1[1..] + m2;
    if |m1| > 1 && m1[0] {
      RunLengthOfConcat(m1[1..], m2);
    }
  }

  /** Texts may be cut and printed apart wherever the cut is not inside a masked run. */
  lemma {:induction false} RenderConcat(s1: string, m1: seq<bool>, s2: string, m2: seq<bool>)
    requires |s1| == |m1| && |s2| == |m2|
    requires m1 != [] ==> m2 != [] ==> !(Last(m1) && m2[0])
    ensures Render(s1 + s2, m1 + m2) == Render(s1, m1) + Render(s2, m2)
    decreases |s1|
  {
    if s1 == [] {
      assert s1 + s2 == s2 && m1 + m2 == m2;
    } else {
      var n := if m1[0] then RunLength(m1) else 1;
      var first := if m1[0] then Token(s1[..n]) else [s1[0]];
      RunLengthOfConcat(m1, m2);
      CutConcat(s1, s2, n);
      CutConcat(m1, m2, n);
      RenderConcat(s1[n..], m1[n..], s2, m2);
      RenderFirst(s1, m1, n);
      RenderFirst(s1 + s2, m1 + m2, n);
      Associate(first, Render(s1[n..], m1[n..]), Render(s2, m2));
    }
  }

  lemma CutConcat<T>(a: seq<T>, b: seq<T>, n: nat)
    requires n <= |a|
    ensures (a + b)[..n] == a[..n] && (a + b)[n..] == a[n..] + b
  {
  }

  lemma Associate(a: string, b: string, c: string)
    ensures (a + b) + c == a + (b + c)
  {
  }

  /** The first token or rune of a print. */
  lemma RenderFirst(s: string, m: seq<bool>, n: nat)
    requires |s| == |m| && s != [] && n == (if m[0] then RunLength(m) else 1)
    ensures Render(s, m) == (if m[0] then Token(s[..n]) else [s[0]]) + Render(s[n..], m[n..])
  {
  }

  /** The positions from i up to j are one maximal hidden run. */
  predicate HiddenRun(mask: seq<bool>, i: nat, j: nat) {
    && i < j <= |mask| && (forall k :: i <= k < j ==> mask[k])
    && (i > 0 ==> !mask[i - 1]) && (j < |mask| ==> !mask[j])
  }

  /**
   A maximal hidden run is printed as eight stars, with its own first rune before and last rune after them exactly when
   it is longer than five, between the prints of its two sides.
   */
  lemma HiddenRunIsStars(s: string, mask: seq<bool>, i: nat, j: nat)
    requires |s| == |mask| && HiddenRun(mask, i, j)
    ensures Render(s, mask) == Render(s[..i], mask[..i])
              + (if j - i > 5 then [s[i]] + "********" + [s[j - 1]] else "********")
              + Render(s[j..], mask[j..])
  {
    RunBetween(s, mask, i, j);
    TokenShows(s, i, j);
  }

  lemma TokenShows(s: string, i: nat, j: nat)
    requires i < j <= |s|
    ensures Token(s[i..j]) == if j - i > 5 then [s[i]] + "********" + [s[j - 1]] else "********"
  {
  }

  lemma RunBetween(s: string, mask: seq<bool>, i: nat, j: nat)
    requires |s| == |mask| && HiddenRun(mask, i, j)
    ensures Render(s, mask) == Render(s[..i], mask[..i]) + Token(s[i..j]) + Render(s[j..], mask[j..])
  {
    ThreeParts(s, i, j);
    ThreeParts(mask, i, j);
    RunEnds(mask, i, j);
    MaximalRunIsOneToken(s[..i], mask[..i], s[i..j], mask[i..j], s[j..], mask[j..]);
  }

  lemma ThreeParts<T>(s: seq<T>, i: nat, j: nat)
    requires i <= j <= |s|
    ensures s == s[..i] + s[i..j] + s[j..]
  {
  }

  lemma RunEnds(mask: seq<bool>, i: nat, j: nat)
    requires HiddenRun(mask, i, j)
    ensures forall k :: 0 <= k < j - i ==> mask[i..j][k]
    ensures (mask[..i] != [] ==> !Last(mask[..i])) && (mask[j..] != [] ==> !mask[j..][0])
  {
  }

  /** A maximal masked run is printed as exactly one token between the prints of its two sides. */
  lemma MaximalRunIsOneToken(pre: string, mpre: seq<bool>, run: string, mrun: seq<bool>, post: string, mpost: seq<bool>)
    requires |pre| == |mpre| && |run| == |mrun| && |post| == |mpost|
    requires run != [] && forall k :: 0 <= k < |mrun| ==> mrun[k]
    requires (mpre != [] ==> !Last(mpre)) && (mpost != [] ==> !mpost[0])
    ensures Render(pre + run + post, mpre + mrun + mpost) == Render(pre, mpre) + Token(run) + Render(post, mpost)
  {
    RenderConcat(pre + run, mpre + mrun, post, mpost);
    RenderConcat(pre, mpre, run, mrun);
    RunIsToken(run, mrun);
  }

  /** In the output, each hidden run is such stars between the prints of its two sides. */
  ghost predicate RunsAreStars(out: string, s: string, mask: seq<bool>)
    requires |s| == |mask|
  {
    forall i: nat, j: nat :: HiddenRun(mask, i, j) ==>
      out == Render(s[..i], mask[..i])
             + (if j - i > 5 then [s[i]] + "********" + [s[j - 1]] else "********")
             + Render(s[j..], mask[j..])
  }

  lemma EveryRunIsStars(s: string, mask: seq<bool>)
    requires |s| == |mask|
    ensures RunsAreStars(Render(s, mask), s, mask)
  {
    forall i: nat, j: nat | HiddenRun(mask, i, j)
      ensures Render(s, mask) == Render(s[..i], mask[..i])
                + (if j - i > 5 then [s[i]] + "********" + [s[j - 1]] else "********")
                + Render(s[j..], mask[j..])
    {
      HiddenRunIsStars(s, mask, i, j);
    }
  }

  lemma RunIsToken(run: string, mrun: seq<bool>)
    requires |run| == |mrun| && run != [] && forall k :: 0 <= k < |mrun| ==> mrun[k]
    ensures Render(run, mrun) == Token(run)
  {
    RenderFirst(run, mrun, |run|);
    assert run[..|run|] == run && run[|run|..] == [];
  }

  /** The rune at k is printed: it is not hidden, or it is an end of a hidden run that is longer than five. */
  ghost predicate Printed(mask: seq<bool>, k: nat) {
    && k < |mask|
    && (mask[k] ==> exists i: nat, j: nat :: HiddenRun(mask, i, j) && j - i > 5 && (k == i || k == j - 1))
  }

  /** No inner rune of a hidden run reaches the print: it depends on the mask and the printed runes only. */
  lemma HiddenRunesDoNotShow(s: string, t: string, mask: seq<bool>)
    requires |s| == |t| == |mask| && forall k: nat :: Printed(mask, k) ==> s[k] == t[k]
    ensures Render(s, mask) == Render(t, mask)
  {
    PrintsAlike(s, t, mask, 0);
    assert s[0..] == s && t[0..] == t && mask[0..] == mask;
  }

  lemma {:induction false} PrintsAlike(s: string, t: string, mask: seq<bool>, i: nat)
    requires |s| == |t| == |mask| && i <= |mask| && forall k: nat :: Printed(mask, k) ==> s[k] == t[k]
    requires 0 < i < |mask| ==> !(mask[i - 1] && mask[i])
    ensures Render(s[i..], mask[i..]) == Render(t[i..], mask[i..])
    decreases |mask| - i
  {
    if i < |mask| {
      RenderFrom(s, mask, i);
      RenderFrom(t, mask, i);
      if mask[i] {
        var n := i + RunLength(mask[i..]);
        RunStartsHere(mask, i, n);
        TokensAlike(s, t, mask, i, n);
        assert n < |mask| ==> !mask[n];
        PrintsAlike(s, t, mask, n);
      } else {
        assert Printed(mask, i);
        PrintsAlike(s, t, mask, i + 1);
      }
    }
  }

  lemma RunStartsHere(mask: seq<bool>, i: nat, n: nat)
    requires i < |mask| && mask[i] && (i > 0 ==> !mask[i - 1]) && n == i + RunLength(mask[i..])
    ensures HiddenRun(mask, i, n)
  {
    var rest := mask[i..];
    assert rest[0];
    forall k | i <= k < n ensures mask[k] {
      assert rest[k - i];
    }
    assert n < |mask| ==> !rest[n - i];
  }

  lemma TokensAlike(s: string, t: string, mask: seq<bool>, i: nat, n: nat)
    requires |s| == |t| == |mask| && HiddenRun(mask, i, n) && forall k: nat :: Printed(mask, k) ==> s[k] == t[k]
    ensures Token(s[i..n]) == Token(t[i..n])
  {
    if n - i > 5 {
      assert Printed(mask, i) && Printed(mask, n - 1);
    }
  }

  /** Text outside the mask is copied in order. */
  lemma {:induction false} UnmaskedIsCopied(s: string, mask: seq<bool>)
    requires |s| == |mask| && forall k :: 0 <= k < |mask| ==> !mask[k]
    ensures Render(s, mask) == s
  {
    if s != [] {
      UnmaskedIsCopied(s[1..], mask[1..]);
    }
  }

  lemma RenderFrom(s: string, mask: seq<bool>, i: nat)
    requires |s| == |mask| && i < |s|
    ensures !mask[i] ==> Render(s[i..], mask[i..]) == [s[i]] + Render(s[i + 1..], mask[i + 1..])
    ensures mask[i] ==> var n := i + RunLength(mask[i..]);
            Render(s[i..], mask[i..]) == Token(s[i..n]) + Render(s[n..], mask[n..])
  {
    var t, m := s[i..], mask[i..];
    var k := if m[0] then RunLength(m) else 1;
    assert t[..k] == s[i..i + k] && t[k..] == s[i + k..] && m[k..] == mask[i + k..];
  }

  /** The inner loop: the end of the masked run that starts at start. */
  method RunEnd(toMask: seq<bool>, start: nat) returns (i: nat)
    requires start < |toMask| && toMask[start]
    ensures i == start + RunLength(toMask[start..])
    ensures start < i <= |toMask|
  {
    i := start;
    ghost var rest := toMask[start..];
    ghost var n := RunLength(rest);
    while i < |toMask| && toMask[i]
      invariant start <= i <= start + n
    {
      assert rest[i - start] == toMask[i];
      i := i + 1;
    }
    if i < |toMask| {
      assert rest[i - start] == toMask[i];
    }
    assert rest[0] == toMask[start];
  }

  /** One more token or rune printed. */
  lemma PrintedMore(s: string, mask: seq<bool>, b: string, piece: string, i: nat, n: nat)
    requires |s| == |mask| && i <= |s| && n <= |s|
    requires Render(s, mask) == b + Render(s[i..], mask[i..])
    requires Render(s[i..], mask[i..]) == piece + Render(s[n..], mask[n..])
    ensures Render(s, mask) == (b + piece) + Render(s[n..], mask[n..])
  {
    Associate(b, piece, Render(s[n..], mask[n..]));
  }

  /** What is written for one hidden run. */
  method HideRun(s: string, start: nat, end: nat) returns (piece: string)
    requires start < end <= |s|
    ensures piece == Token(s[start..end])
  {
    if end - start > 5 {
      piece := [s[start]] + MASK + [s[end - 1]];
    } else {
      piece := MASK;
    }
  }

  /** The index-driven output loop. */
  method WriteMasked(s: string, toMask: seq<bool>) returns (b: string)
    requires |s| == |toMask|
    ensures b == Render(s, toMask)
  {
    b := [];
    var i := 0;
    while i < |s|
      invariant 0 <= i <= |s|
      invariant Render(s, toMask) == b + Render(s[i..], toMask[i..])
    {
      RenderFrom(s, toMask, i);
      if toMask[i] {
        var start := i;
        i := RunEnd(toMask, start);
        var end := i;
        var piece := HideRun(s, start, end);
        PrintedMore(s, toMask, b, piece, start, end);
        b := b + piece;
      } else {
        PrintedMore(s, toMask, b, [s[i]], i, i + 1);
        b := b + [s[i]];
        i := i + 1;
      }
    }
  }

  /**
   The masker: the input with the union of all close windows hidden, and nothing else changed; each hidden run is
   stars, with its ends shown exactly when it is longer than five.
   */
  method DataMasking(str: string, private: seq<string>) returns (out: string)
    ensures out == Render(str, MaskOf(str, WordSet(private)))
    ensures RunsAreStars(out, str, MaskOf(str, WordSet(private)))
  {
    EveryRunIsStars(str, MaskOf(str, WordSet(private)));
    ghost var mask := MaskOf(str, WordSet(private));
    if str == [] || |private| == 0 {
      UnmaskedIsCopied(str, mask);
      return str;
    }
    var toMask := new bool[|str|](k => false);
    var words := CollectWords(private);
    assert forall w :: w in words ==> w in SetOf(words);
    if |words| == 0 {
      UnmaskedIsCopied(str, mask);
      return str;
    }
    MarkWindows(str, words, toMask);
    out := WriteMasked(str, toMask[..]);
  }

  /** Texts that are hidden alike, and agree on what is printed of them, give the same output. */
  lemma SecretsDoNotShow(s: string, t: string, p: seq<string>, q: seq<string>)
    requires MaskOf(s, WordSet(p)) == MaskOf(t, WordSet(q)) && |s| == |t|
    requires forall k: nat :: Printed(MaskOf(s, WordSet(p)), k) ==> s[k] == t[k]
    ensures Render(s, MaskOf(s, WordSet(p))) == Render(t, MaskOf(t, WordSet(q)))
  {
    HiddenRunesDoNotShow(s, t, MaskOf(s, WordSet(p)));
  }

  /** Order and repetition in the list of private words make no difference. */
  lemma OnlyTheSetOfWordsMatters(str: string, p: seq<string>, q: seq<string>)
    requires forall w :: w in p <==> w in q
    ensures Render(str, MaskOf(str, WordSet(p))) == Render(str, MaskOf(str, WordSet(q)))
  {
    assert WordSet(p) == WordSet(q);
  }
}
