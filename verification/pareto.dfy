/** The Pareto-dominance filter of utils.py: `pareto(X, directions)` keeps the
    indices of the points of X that no other point beats, after every
    objective has been turned into "larger is better" by the direction signs. */
module Pareto {
  import opened ExtReal

  /** One entry of the +1/-1 direction vector. */
  datatype Direction = Maximise | Minimise

  function Orient(x: XReal, d: Direction): XReal
  {
    if d == Maximise then x else Neg(x)
  }

  predicate Rectangular(N: seq<seq<XReal>>, width: nat)
  {
    forall i :: 0 <= i < |N| ==> |N[i]| == width
  }

  /** `X * directions`: the normalised point set. */
  function Normalize(X: seq<seq<XReal>>, directions: seq<Direction>): (N: seq<seq<XReal>>)
    requires Rectangular(X, |directions|)
    ensures |N| == |X| && Rectangular(N, |directions|)
    ensures forall i, k :: 0 <= i < |X| && 0 <= k < |directions| ==>
      N[i][k] == Orient(X[i][k], directions[k])
  {
    seq(|X|, i requires 0 <= i < |X| =>
      seq(|directions|, k requires 0 <= k < |directions| => Orient(X[i][k], directions[k])))
  }

  /** u is nowhere strictly greater than v. */
  predicate WeaklyBelow(u: seq<XReal>, v: seq<XReal>)
  {
    forall k :: 0 <= k < |u| && k < |v| ==> Le(u[k], v[k])
  }

  /** `np.any(u > v)`. */
  predicate Exceeds(u: seq<XReal>, v: seq<XReal>)
  {
    exists k :: 0 <= k < |u| && k < |v| && Lt(v[k], u[k])
  }

  lemma ExceedsIsNotWeaklyBelow(u: seq<XReal>, v: seq<XReal>)
    ensures Exceeds(u, v) <==> !WeaklyBelow(u, v)
  {
  }

  lemma WeaklyBelowTransitive(a: seq<XReal>, b: seq<XReal>, c: seq<XReal>)
    requires |a| == |b| == |c|
    requires WeaklyBelow(a, b) && WeaklyBelow(b, c)
    ensures WeaklyBelow(a, c)
  {
    forall k | 0 <= k < |a| ensures Le(a[k], c[k]) {
      LeTransitive(a[k], b[k], c[k]);
    }
  }

  lemma WeaklyBelowAntisymmetric(a: seq<XReal>, b: seq<XReal>)
    requires |a| == |b|
    requires WeaklyBelow(a, b) && WeaklyBelow(b, a)
    ensures a == b
  {
    forall k | 0 <= k < |a| ensures a[k] == b[k] {
      LeAntisymmetric(a[k], b[k]);
    }
  }

  // ---------------------------------------------------------------------------
  // Boolean-mask indexing, `arr[mask]`, and `np.sum(mask)`.

  function Count(m: seq<bool>): (c: nat)
    ensures c <= |m|
  {
    if m == [] then 0 else (if m[0] then 1 else 0) + Count(m[1..])
  }

  function Select<T>(s: seq<T>, m: seq<bool>): (r: seq<T>)
    requires |s| == |m|
    ensures |r| == Count(m)
  {
    if s == [] then [] else (if m[0] then [s[0]] else []) + Select(s[1..], m[1..])
  }

  lemma {:induction false} SelectAppend<T>(s1: seq<T>, m1: seq<bool>, s2: seq<T>, m2: seq<bool>)
    requires |s1| == |m1| && |s2| == |m2|
    ensures Select(s1 + s2, m1 + m2) == Select(s1, m1) + Select(s2, m2)
  {
    if s1 != [] {
      var head := if m1[0] then [s1[0]] else [];
      assert (s1 + s2)[0] == s1[0] && (m1 + m2)[0] == m1[0];
      assert (s1 + s2)[1..] == s1[1..] + s2;
      assert (m1 + m2)[1..] == m1[1..] + m2;
      calc {
        Select(s1 + s2, m1 + m2);
        head + Select(s1[1..] + s2, m1[1..] + m2);
        { SelectAppend(s1[1..], m1[1..], s2, m2); }
        head + (Select(s1[1..], m1[1..]) + Select(s2, m2));
        (head + Select(s1[1..], m1[1..])) + Select(s2, m2);
      }
    } else {
      assert s1 + s2 == s2 && m1 + m2 == m2;
    }
  }

  /** Every selected element comes from a position the mask keeps. */
  lemma {:induction false} SelectOrigin<T>(s: seq<T>, m: seq<bool>, p: nat) returns (p0: nat)
    requires |s| == |m| && p < |Select(s, m)|
    ensures p0 < |s| && m[p0] && s[p0] == Select(s, m)[p]
  {
    var rest := Select(s[1..], m[1..]);
    if m[0] && p == 0 {
      p0 := 0;
    } else {
      var q := if m[0] then p - 1 else p;
      assert Select(s, m)[p] == rest[q];
      var p1 := SelectOrigin(s[1..], m[1..], q);
      p0 := p1 + 1;
    }
  }

  /** Every position the mask keeps is selected. */
  lemma {:induction false} SelectKeeps<T>(s: seq<T>, m: seq<bool>, j: nat)
    requires |s| == |m| && j < |s| && m[j]
    ensures s[j] in Select(s, m)
  {
    if j > 0 {
      SelectKeeps(s[1..], m[1..], j - 1);
    }
  }

  predicate StrictlyIncreasing(r: seq<nat>)
  {
    forall i, j :: 0 <= i < j < |r| ==> r[i] < r[j]
  }

  lemma {:induction false} SelectIncreasing(s: seq<nat>, m: seq<bool>)
    requires |s| == |m| && StrictlyIncreasing(s)
    ensures StrictlyIncreasing(Select(s, m))
  {
    if s != [] {
      var rest := Select(s[1..], m[1..]);
      SelectIncreasing(s[1..], m[1..]);
      forall p | 0 <= p < |rest| ensures s[0] < rest[p] {
        var p0 := SelectOrigin<nat>(s[1..], m[1..], p);
      }
    }
  }

  /** The rows of N at the given indices: the `costs` array kept beside `is_efficient`. */
  function Rows(N: seq<seq<XReal>>, idx: seq<nat>): (c: seq<seq<XReal>>)
    requires forall i :: 0 <= i < |idx| ==> idx[i] < |N|
    ensures |c| == |idx| && forall j :: 0 <= j < |idx| ==> c[j] == N[idx[j]]
  {
    seq(|idx|, j requires 0 <= j < |idx| => N[idx[j]])
  }

  lemma {:induction false} SelectRows(N: seq<seq<XReal>>, idx: seq<nat>, m: seq<bool>)
    requires forall i :: 0 <= i < |idx| ==> idx[i] < |N|
    requires |idx| == |m|
    ensures forall p :: 0 <= p < |Select<nat>(idx, m)| ==> Select<nat>(idx, m)[p] < |N|
    ensures Select(Rows(N, idx), m) == Rows(N, Select<nat>(idx, m))
  {
    forall p | 0 <= p < |Select<nat>(idx, m)| ensures Select<nat>(idx, m)[p] < |N| {
      var p0 := SelectOrigin<nat>(idx, m, p);
      assert idx[p0] < |N|;
      assert Select<nat>(idx, m)[p] == idx[p0];
    }
    if idx != [] {
      SelectRows(N, idx[1..], m[1..]);
      assert Rows(N, idx)[1..] == Rows(N, idx[1..]);
    }
  }

  // ---------------------------------------------------------------------------
  // What the filter promises.

  predicate ValidIndices(r: seq<nat>, n: nat)
  {
    forall i :: 0 <= i < |r| ==> r[i] < n
  }

  lemma SelectValid(r: seq<nat>, m: seq<bool>, n: nat)
    requires |r| == |m| && ValidIndices(r, n)
    ensures ValidIndices(Select<nat>(r, m), n)
  {
    forall p | 0 <= p < |Select<nat>(r, m)| ensures Select<nat>(r, m)[p] < n {
      var p0 := SelectOrigin<nat>(r, m, p);
    }
  }

  /** Any two distinct kept points are each strictly greater than the other somewhere. */
  predicate MutuallyNonDominated(N: seq<seq<XReal>>, r: seq<nat>)
    requires ValidIndices(r, |N|)
  {
    forall p, q :: 0 <= p < |r| && 0 <= q < |r| && p != q ==> Exceeds(N[r[q]], N[r[p]])
  }

  /** Every dropped point is nowhere strictly greater than some kept point. */
  predicate CoversDropped(N: seq<seq<XReal>>, r: seq<nat>)
    requires ValidIndices(r, |N|)
  {
    forall i :: 0 <= i < |N| && i !in r ==> exists q :: 0 <= q < |r| && WeaklyBelow(N[i], N[r[q]])
  }

  /** A kept point is strictly greater somewhere than every point before it,
      so of a group of equal points only the first can be kept. */
  predicate FirstOfTies(N: seq<seq<XReal>>, r: seq<nat>)
    requires ValidIndices(r, |N|)
  {
    forall q, a :: 0 <= q < |r| && 0 <= a < r[q] ==> Exceeds(N[r[q]], N[a])
  }

  predicate ParetoResult(N: seq<seq<XReal>>, r: seq<nat>)
  {
    && ValidIndices(r, |N|)
    && StrictlyIncreasing(r)
    && MutuallyNonDominated(N, r)
    && CoversDropped(N, r)
    && FirstOfTies(N, r)
  }

  /** The points the filter must keep: b is beaten by no other point, and the
      only points b is nowhere strictly greater than are later copies of it. */
  predicate OnFrontier(N: seq<seq<XReal>>, b: nat)
    requires b < |N|
  {
    forall a :: 0 <= a < |N| && a != b && WeaklyBelow(N[b], N[a]) ==> N[a] == N[b] && b < a
  }

  // ---------------------------------------------------------------------------
  // The loop of utils.py:25-30.

  /** Lines 26-27: keep every point that is somewhere strictly greater than the
      current one, and the current one itself. */
  function DominanceMask(costs: seq<seq<XReal>>, current: nat): (m: seq<bool>)
    requires current < |costs|
    ensures |m| == |costs| && m[current]
    ensures forall j :: 0 <= j < |costs| && j != current ==> (m[j] <==> Exceeds(costs[j], costs[current]))
  {
    seq(|costs|, j requires 0 <= j < |costs| => Exceeds(costs[j], costs[current]))[current := true]
  }

  /** Every point already used as "current" is beaten somewhere by every other survivor. */
  ghost predicate ProcessedBeaten(N: seq<seq<XReal>>, eff: seq<nat>, next: nat)
    requires ValidIndices(eff, |N|)
  {
    forall p, q :: 0 <= p < next && p < |eff| && 0 <= q < |eff| && p != q ==> Exceeds(N[eff[q]], N[eff[p]])
  }

  /** A survivor nowhere above an earlier point has that point still waiting its turn. */
  ghost predicate EarlierWaiting(N: seq<seq<XReal>>, eff: seq<nat>, next: nat)
    requires ValidIndices(eff, |N|) && next <= |eff|
  {
    forall q, a :: 0 <= q < |eff| && 0 <= a < eff[q] && WeaklyBelow(N[eff[q]], N[a]) ==> a in eff[next..]
  }

  /** The loop invariant: `eff` is `is_efficient`, `next` is `next_point_index`. */
  ghost predicate FilterInv(N: seq<seq<XReal>>, eff: seq<nat>, next: nat)
  {
    && ValidIndices(eff, |N|)
    && StrictlyIncreasing(eff)
    && next <= |eff|
    && (|N| > 0 ==> |eff| > 0)
    && ProcessedBeaten(N, eff, next)
    && CoversDropped(N, eff)
    && EarlierWaiting(N, eff, next)
  }

  lemma FilterInvInit(N: seq<seq<XReal>>)
    ensures FilterInv(N, seq(|N|, i => i), 0)
  {
    var eff := seq(|N|, i => i);
    forall i | 0 <= i < |N| ensures i in eff { assert eff[i] == i; }
  }

  /** One round removes the points the current one covers and keeps the
      current point: the survivors split at the current point. */
  lemma StepShape(eff: seq<nat>, next: nat, m: seq<bool>)
    requires next < |eff| == |m| && m[next]
    ensures Select<nat>(eff, m)
      == Select<nat>(eff[..next], m[..next]) + [eff[next]] + Select<nat>(eff[next + 1..], m[next + 1..])
    ensures Count(m) == Count(m[..next]) + 1 + |Select<nat>(eff[next + 1..], m[next + 1..])|
  {
    var c0 := eff[next];
    assert eff == eff[..next] + [c0] + eff[next + 1..];
    assert m == m[..next] + [true] + m[next + 1..];
    SelectAppend(eff[..next] + [c0], m[..next] + [true], eff[next + 1..], m[next + 1..]);
    SelectAppend(eff[..next], m[..next], [c0], [true]);
    assert Select([c0], [true]) == [c0];
  }

  /** Survivors of the round other than the current point beat it somewhere. */
  lemma StepBeatsCurrent(N: seq<seq<XReal>>, eff: seq<nat>, next: nat)
    requires ValidIndices(eff, |N|) && StrictlyIncreasing(eff) && next < |eff|
    ensures var m := DominanceMask(Rows(N, eff), next);
      forall q :: 0 <= q < |Select<nat>(eff, m)| && Select<nat>(eff, m)[q] != eff[next] ==>
        Select<nat>(eff, m)[q] in eff && Exceeds(N[Select<nat>(eff, m)[q]], N[eff[next]])
  {
    var m := DominanceMask(Rows(N, eff), next);
    forall q | 0 <= q < |Select<nat>(eff, m)| && Select<nat>(eff, m)[q] != eff[next]
      ensures Select<nat>(eff, m)[q] in eff && Exceeds(N[Select<nat>(eff, m)[q]], N[eff[next]])
    {
      var q0 := SelectOrigin<nat>(eff, m, q);
      assert q0 != next;
    }
  }

  lemma StepProcessed(N: seq<seq<XReal>>, eff: seq<nat>, next: nat)
    requires ValidIndices(eff, |N|) && StrictlyIncreasing(eff) && next < |eff|
    requires ProcessedBeaten(N, eff, next)
    ensures var m := DominanceMask(Rows(N, eff), next);
      ValidIndices(Select<nat>(eff, m), |N|) &&
      ProcessedBeaten(N, Select<nat>(eff, m), Count(m[..next]) + 1)
  {
    var m := DominanceMask(Rows(N, eff), next);
    var eff' := Select<nat>(eff, m);
    SelectValid(eff, m, |N|);
    forall p, q | 0 <= p < Count(m[..next]) + 1 && p < |eff'| && 0 <= q < |eff'| && p != q
      ensures Exceeds(N[eff'[q]], N[eff'[p]])
    {
      ProcessedPair(N, eff, next, p, q);
    }
  }

  /** Positions before the current point's new position hold the processed survivors. */
  lemma StepPrefix(eff: seq<nat>, next: nat, m: seq<bool>)
    requires next < |eff| == |m| && m[next]
    ensures var L := Select<nat>(eff[..next], m[..next]);
      && |L| == Count(m[..next]) < |Select<nat>(eff, m)|
      && Select<nat>(eff, m)[|L|] == eff[next]
      && forall p :: 0 <= p < |L| ==> Select<nat>(eff, m)[p] == L[p]
  {
    StepShape(eff, next, m);
  }

  lemma ProcessedPair(N: seq<seq<XReal>>, eff: seq<nat>, next: nat, p: nat, q: nat)
    requires ValidIndices(eff, |N|) && StrictlyIncreasing(eff) && next < |eff|
    requires ProcessedBeaten(N, eff, next)
    requires var m := DominanceMask(Rows(N, eff), next);
      p < Count(m[..next]) + 1 && p < |Select<nat>(eff, m)| && q < |Select<nat>(eff, m)| && p != q
    ensures var m := DominanceMask(Rows(N, eff), next);
      ValidIndices(Select<nat>(eff, m), |N|) &&
      Exceeds(N[Select<nat>(eff, m)[q]], N[Select<nat>(eff, m)[p]])
  {
    var m := DominanceMask(Rows(N, eff), next);
    var L := Select<nat>(eff[..next], m[..next]);
    var eff' := Select<nat>(eff, m);
    StepPrefix(eff, next, m);
    SelectIncreasing(eff, m);
    SelectValid(eff, m, |N|);
    assert eff'[q] != eff'[p];
    var q0 := SelectOrigin<nat>(eff, m, q);
    if p < |L| {
      var p0 := SelectOrigin<nat>(eff[..next], m[..next], p);
      assert eff'[p] == eff[p0] && p0 < next;
      assert p0 != q0;
      assert Exceeds(N[eff[q0]], N[eff[p0]]);
    } else {
      assert eff'[p] == eff[next];
      assert q0 != next && m[q0];
      assert Rows(N, eff)[q0] == N[eff[q0]];
    }
  }

  lemma StepCovers(N: seq<seq<XReal>>, width: nat, eff: seq<nat>, next: nat)
    requires Rectangular(N, width)
    requires ValidIndices(eff, |N|) && next < |eff| && CoversDropped(N, eff)
    ensures var m := DominanceMask(Rows(N, eff), next);
      ValidIndices(Select<nat>(eff, m), |N|) && CoversDropped(N, Select<nat>(eff, m))
  {
    var m := DominanceMask(Rows(N, eff), next);
    var eff' := Select<nat>(eff, m);
    SelectValid(eff, m, |N|);
    forall i | 0 <= i < |N| && i !in eff'
      ensures exists q :: 0 <= q < |eff'| && WeaklyBelow(N[i], N[eff'[q]])
    {
      var q := CoverOne(N, width, eff, next, i);
    }
  }

  /** A point dropped by the end of the round is covered by a survivor: the
      one that covered it before, or the current point if that one is dropped now. */
  lemma CoverOne(N: seq<seq<XReal>>, width: nat, eff: seq<nat>, next: nat, i: nat) returns (q: nat)
    requires Rectangular(N, width)
    requires ValidIndices(eff, |N|) && next < |eff| && CoversDropped(N, eff)
    requires i < |N| && i !in Select<nat>(eff, DominanceMask(Rows(N, eff), next))
    ensures var eff' := Select<nat>(eff, DominanceMask(Rows(N, eff), next));
      q < |eff'| && eff'[q] < |N| && WeaklyBelow(N[i], N[eff'[q]])
  {
    var m := DominanceMask(Rows(N, eff), next);
    var c0 := eff[next];
    var eff' := Select<nat>(eff, m);
    SelectValid(eff, m, |N|);
    SelectKeeps<nat>(eff, m, next);
    var k :| 0 <= k < |eff'| && eff'[k] == c0;
    if i in eff {
      var j :| 0 <= j < |eff| && eff[j] == i;
      if m[j] {
        SelectKeeps<nat>(eff, m, j);
      }
      q := k;
    } else {
      var w :| 0 <= w < |eff| && WeaklyBelow(N[i], N[eff[w]]);
      if m[w] {
        SelectKeeps<nat>(eff, m, w);
        q :| 0 <= q < |eff'| && eff'[q] == eff[w];
      } else {
        WeaklyBelowTransitive(N[i], N[eff[w]], N[c0]);
        q := k;
      }
    }
  }

  lemma StepWaiting(N: seq<seq<XReal>>, width: nat, eff: seq<nat>, next: nat)
    requires Rectangular(N, width)
    requires ValidIndices(eff, |N|) && StrictlyIncreasing(eff) && next < |eff|
    requires EarlierWaiting(N, eff, next)
    ensures var m := DominanceMask(Rows(N, eff), next);
      && ValidIndices(Select<nat>(eff, m), |N|)
      && Count(m[..next]) + 1 <= |Select<nat>(eff, m)|
      && EarlierWaiting(N, Select<nat>(eff, m), Count(m[..next]) + 1)
  {
    var m := DominanceMask(Rows(N, eff), next);
    var c0 := eff[next];
    var L := Select<nat>(eff[..next], m[..next]);
    var R := Select<nat>(eff[next + 1..], m[next + 1..]);
    var eff' := Select<nat>(eff, m);
    StepShape(eff, next, m);
    SelectValid(eff, m, |N|);
    assert eff'[|L| + 1..] == R;
    forall q, a | 0 <= q < |eff'| && 0 <= a < eff'[q] && WeaklyBelow(N[eff'[q]], N[a])
      ensures a in eff'[|L| + 1..]
    {
      var j := SelectOrigin<nat>(eff, m, q);
      var k := WaitingIndex(N, eff, next, j, a);
      WaitingSurvivor(N, width, eff, next, j, k);
    }
  }

  /** A survivor of the round that is nowhere above an earlier point a:
      a was still waiting, it is not the current point, and it survives. */
  lemma WaitingSurvivor(N: seq<seq<XReal>>, width: nat, eff: seq<nat>, next: nat, j: nat, k: nat)
    requires Rectangular(N, width)
    requires ValidIndices(eff, |N|) && StrictlyIncreasing(eff)
    requires next <= k < |eff| && j < |eff| && DominanceMask(Rows(N, eff), next)[j]
    requires eff[k] < eff[j] && WeaklyBelow(N[eff[j]], N[eff[k]])
    ensures var m := DominanceMask(Rows(N, eff), next);
      eff[k] in Select<nat>(eff[next + 1..], m[next + 1..])
  {
    var m := DominanceMask(Rows(N, eff), next);
    var a := eff[k];
    WaitingKept(N, width, eff, next, j, k);
    var effTail, mTail := eff[next + 1..], m[next + 1..];
    assert effTail[k - next - 1] == a && mTail[k - next - 1];
    SelectKeeps<nat>(effTail, mTail, k - next - 1);
  }

  lemma WaitingIndex(N: seq<seq<XReal>>, eff: seq<nat>, next: nat, j: nat, a: nat) returns (k: nat)
    requires ValidIndices(eff, |N|) && next <= |eff| && EarlierWaiting(N, eff, next)
    requires j < |eff| && a < eff[j] && WeaklyBelow(N[eff[j]], N[a])
    ensures next <= k < |eff| && eff[k] == a
  {
    assert a in eff[next..];
    var i :| 0 <= i < |eff[next..]| && eff[next..][i] == a;
    k := next + i;
  }

  /** If the survivor at position j is nowhere above the waiting point at
      position k before it in index order, then k is after the current point
      and the mask keeps it. */
  lemma WaitingKept(N: seq<seq<XReal>>, width: nat, eff: seq<nat>, next: nat, j: nat, k: nat)
    requires Rectangular(N, width)
    requires ValidIndices(eff, |N|) && StrictlyIncreasing(eff)
    requires next <= k < |eff| && j < |eff| && eff[k] < eff[j]
    requires DominanceMask(Rows(N, eff), next)[j]
    requires WeaklyBelow(N[eff[j]], N[eff[k]])
    ensures k > next && DominanceMask(Rows(N, eff), next)[k]
  {
    var m := DominanceMask(Rows(N, eff), next);
    assert j != next;
    assert Exceeds(N[eff[j]], N[eff[next]]);
    if k == next {
      assert false;
    }
    if !m[k] {
      assert WeaklyBelow(N[eff[k]], N[eff[next]]);
      WeaklyBelowTransitive(N[eff[j]], N[eff[k]], N[eff[next]]);
      assert false;
    }
  }

  /** When every survivor has had its turn, the invariant is the promise of the filter. */
  lemma FilterDone(N: seq<seq<XReal>>, costs: seq<seq<XReal>>, eff: seq<nat>, next: nat)
    requires LoopState(N, costs, eff, next) && next >= |costs|
    ensures ParetoResult(N, eff)
    ensures |N| > 0 ==> |eff| > 0
    ensures |eff| <= |N|
  {
    IncreasingBounded(eff, |N|);
    assert next == |eff|;
    forall p, q | 0 <= p < |eff| && 0 <= q < |eff| && p != q
      ensures Exceeds(N[eff[q]], N[eff[p]])
    {
    }
    assert eff[next..] == [];
    forall q, a | 0 <= q < |eff| && 0 <= a < eff[q] ensures Exceeds(N[eff[q]], N[a]) {
      ExceedsIsNotWeaklyBelow(N[eff[q]], N[a]);
    }
  }

  lemma FilterStep(N: seq<seq<XReal>>, width: nat, eff: seq<nat>, next: nat)
    requires Rectangular(N, width)
    requires FilterInv(N, eff, next) && next < |eff|
    ensures var m := DominanceMask(Rows(N, eff), next);
      && FilterInv(N, Select<nat>(eff, m), Count(m[..next]) + 1)
      && |Select<nat>(eff, m)| - (Count(m[..next]) + 1) < |eff| - next
  {
    var m := DominanceMask(Rows(N, eff), next);
    StepShape(eff, next, m);
    SelectIncreasing(eff, m);
    StepProcessed(N, eff, next);
    StepCovers(N, width, eff, next);
    StepWaiting(N, width, eff, next);
  }

  /** The state of the loop: `costs` holds the rows of the survivors. */
  ghost predicate LoopState(N: seq<seq<XReal>>, costs: seq<seq<XReal>>, eff: seq<nat>, next: nat)
  {
    FilterInv(N, eff, next) && costs == Rows(N, eff)
  }

  lemma FilterRound(N: seq<seq<XReal>>, width: nat, costs: seq<seq<XReal>>, eff: seq<nat>, next: nat, mask: seq<bool>)
    requires Rectangular(N, width)
    requires LoopState(N, costs, eff, next) && next < |costs|
    requires mask == DominanceMask(costs, next)
    ensures LoopState(N, Select(costs, mask), Select<nat>(eff, mask), Count(mask[..next]) + 1)
    ensures |Select(costs, mask)| - (Count(mask[..next]) + 1) < |costs| - next
  {
    FilterStep(N, width, eff, next);
    SelectRows(N, eff, mask);
  }

  /** `pareto(X, directions)`: the indices of the non-dominated points of X. */
  method ParetoFront(X: seq<seq<XReal>>, directions: seq<Direction>) returns (r: seq<nat>)
    requires Rectangular(X, |directions|)
    ensures ParetoResult(Normalize(X, directions), r)
    ensures |X| > 0 ==> |r| > 0
    ensures |r| <= |X|
  {
    var costs := Normalize(X, directions);
    ghost var N := costs;
    var isEfficient: seq<nat> := seq(|costs|, i => i);
    var next: nat := 0;
    FilterInvInit(N);
    RowsOfAll(N);
    while next < |costs|
      invariant LoopState(N, costs, isEfficient, next)
      decreases |costs| - next
    {
      var mask := DominanceMask(costs, next);
      FilterRound(N, |directions|, costs, isEfficient, next, mask);
      isEfficient := Select<nat>(isEfficient, mask);
      costs := Select(costs, mask);
      next := Count(mask[..next]) + 1;
    }
    FilterDone(N, costs, isEfficient, next);
    r := isEfficient;
  }

  lemma RowsOfAll(N: seq<seq<XReal>>)
    ensures Rows(N, seq(|N|, i => i)) == N
  {
  }

  lemma {:induction false} IncreasingBounded(r: seq<nat>, n: nat)
    requires ValidIndices(r, n) && StrictlyIncreasing(r)
    ensures |r| <= n
  {
    if r != [] {
      var init := r[..|r| - 1];
      assert forall i :: 0 <= i < |init| ==> init[i] < r[|r| - 1];
      IncreasingBounded(init, r[|r| - 1]);
    }
  }
}

/** What the promise of the filter pins down. */
module ParetoFacts {
  import opened ExtReal
  import opened Pareto

  lemma NothingExceedsItself(u: seq<XReal>)
    ensures !Exceeds(u, u)
  {
  }

  /** The kept indices are exactly the points on the frontier. */
  lemma FrontierCharacterisation(N: seq<seq<XReal>>, width: nat, r: seq<nat>)
    requires Rectangular(N, width) && ParetoResult(N, r)
    ensures forall b: nat :: b in r <==> b < |N| && OnFrontier(N, b)
  {
    forall b | b in r ensures b < |N| && OnFrontier(N, b) {
      var i :| 0 <= i < |r| && r[i] == b;
      forall a | 0 <= a < |N| && a != b && WeaklyBelow(N[b], N[a])
        ensures N[a] == N[b] && b < a
      {
        ExceedsIsNotWeaklyBelow(N[b], N[a]);
        assert forall j :: 0 <= j < |r| && j != i ==> Exceeds(N[r[i]], N[r[j]]);
        assert a !in r;
        var q :| 0 <= q < |r| && WeaklyBelow(N[a], N[r[q]]);
        WeaklyBelowTransitive(N[b], N[a], N[r[q]]);
        ExceedsIsNotWeaklyBelow(N[r[i]], N[r[q]]);
        assert q == i;
        WeaklyBelowAntisymmetric(N[a], N[b]);
      }
    }
    forall b: nat | b < |N| && OnFrontier(N, b) ensures b in r {
      forall q | 0 <= q < |r| && r[q] != b ensures !WeaklyBelow(N[b], N[r[q]]) {
        ExceedsIsNotWeaklyBelow(N[r[q]], N[b]);
        NothingExceedsItself(N[b]);
        assert b < r[q] ==> Exceeds(N[r[q]], N[b]);
      }
    }
  }

  lemma {:induction false} IncreasingDeterminedByMembers(r1: seq<nat>, r2: seq<nat>)
    requires StrictlyIncreasing(r1) && StrictlyIncreasing(r2)
    requires forall x :: x in r1 <==> x in r2
    ensures r1 == r2
  {
    assert r2 != [] ==> r2[0] in r2;
    if r1 != [] {
      assert r1[0] in r2;
      assert r2[0] in r1;
      assert r1[0] == r2[0];
      forall x ensures x in r1[1..] <==> x in r2[1..] {
        assert x in r1[1..] <==> x in r1 && x != r1[0];
        assert x in r2[1..] <==> x in r2 && x != r2[0];
      }
      IncreasingDeterminedByMembers(r1[1..], r2[1..]);
      assert r1 == [r1[0]] + r1[1..];
      assert r2 == [r2[0]] + r2[1..];
    }
  }

  /** The promise determines the output: `pareto` is a function of `X * directions`
      alone, so two point sets with the same normalised form give the same indices. */
  lemma ParetoUnique(N: seq<seq<XReal>>, width: nat, r1: seq<nat>, r2: seq<nat>)
    requires Rectangular(N, width)
    requires ParetoResult(N, r1) && ParetoResult(N, r2)
    ensures r1 == r2
  {
    FrontierCharacterisation(N, width, r1);
    FrontierCharacterisation(N, width, r2);
    IncreasingDeterminedByMembers(r1, r2);
  }

  /** No point beats a kept point: whatever is no worse everywhere is an exact copy. */
  lemma KeptNotDominated(N: seq<seq<XReal>>, width: nat, r: seq<nat>, b: nat, a: nat)
    requires Rectangular(N, width) && ParetoResult(N, r)
    requires b in r && a < |N| && WeaklyBelow(N[b], N[a])
    ensures N[a] == N[b]
  {
    FrontierCharacterisation(N, width, r);
  }

  /** `[-1, -1]`: a point is nowhere above another exactly when, on both raw
      objectives, the other is no larger. */
  lemma MinimiseBoth(X: seq<seq<XReal>>, a: nat, b: nat)
    requires Rectangular(X, 2) && a < |X| && b < |X|
    ensures var N := Normalize(X, [Minimise, Minimise]);
      WeaklyBelow(N[b], N[a]) <==> Le(X[a][0], X[b][0]) && Le(X[a][1], X[b][1])
  {
    var N := Normalize(X, [Minimise, Minimise]);
    NegReverses(X[a][0], X[b][0]);
    NegReverses(X[a][1], X[b][1]);
    assert N[b][0] == Neg(X[b][0]) && N[a][0] == Neg(X[a][0]);
    assert N[b][1] == Neg(X[b][1]) && N[a][1] == Neg(X[a][1]);
  }
}
