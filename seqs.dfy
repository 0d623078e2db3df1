/** Facts about papers made of equally long groups of shapes, drawn one group after another. */
module Seqs {

  /** `paper` begins with `front`. */
  ghost predicate Starts<T>(paper: seq<T>, front: seq<T>)
  {
    |front| <= |paper| && paper[..|front|] == front
  }

  /** A paper begins with whatever a prefix of it begins with. */
  lemma StartsTrans<T>(paper: seq<T>, middle: seq<T>, front: seq<T>)
    requires Starts(paper, middle) && Starts(middle, front)
    ensures Starts(paper, front)
  {
    assert paper[..|front|] == paper[..|middle|][..|front|];
  }

  /** A block of the second part of a paper that starts with `before + all`. */
  lemma BlockAt<T>(paper: seq<T>, before: seq<T>, all: seq<T>, k: nat, p: nat)
    requires |before| + |all| <= |paper| && paper[..|before| + |all|] == before + all && k + p <= |all|
    ensures paper[|before| + k .. |before| + k + p] == all[k .. k + p]
  {
    var prefix := paper[..|before| + |all|];
    forall m | |before| + k <= m < |before| + k + p
      ensures paper[m] == all[m - |before|]
    {
      assert paper[m] == prefix[m];
    }
  }

  /** A slice inside the first part of a concatenation. */
  lemma SliceFront<T>(xs: seq<T>, ys: seq<T>, a: nat, b: nat)
    requires a <= b <= |xs|
    ensures (xs + ys)[a .. b] == xs[a .. b]
  {
  }

  /** The second part of a concatenation as a slice. */
  lemma SliceBack<T>(xs: seq<T>, ys: seq<T>)
    ensures (xs + ys)[|xs| .. |xs| + |ys|] == ys
  {
  }

  /**
   * `p * n` by repeated addition. The handle arithmetic of groups of `p`
   * shapes is written with it so that the solver reasons linearly.
   */
  function Times(p: nat, n: nat): nat
  {
    if n == 0 then 0 else Times(p, n - 1) + p
  }

  /** `Times` is multiplication. */
  lemma {:induction false} TimesIsProduct(p: nat, n: nat)
    ensures Times(p, n) == p * n
  {
    if n > 0 {
      TimesIsProduct(p, n - 1);
    }
  }

  lemma {:induction false} TimesMonotone(p: nat, a: nat, b: nat)
    requires a <= b
    ensures Times(p, a) <= Times(p, b)
  {
    if a < b {
      TimesMonotone(p, a, b - 1);
    }
  }

  /** A prefix of the first part of a concatenation. */
  lemma PrefixOfAppend<T>(xs: seq<T>, ys: seq<T>, k: nat)
    requires k <= |xs|
    ensures (xs + ys)[..k] == xs[..k]
  {
  }

  /** Element `k` of a block `row` that sits at position `base` of `paper`. */
  lemma SliceAt<T>(paper: seq<T>, base: nat, row: seq<T>, k: nat)
    requires base + |row| <= |paper| && paper[base .. base + |row|] == row && k < |row|
    ensures paper[base + k] == row[k]
  {
    assert paper[base + k] == paper[base .. base + |row|][k];
  }

  /**
   * A block `row` at position `t` of `all`, named by the consecutive handles
   * `ids` starting at `|front| + t`, is found through them on `front + all`.
   */
  lemma BlockAfterFront<T>(front: seq<T>, all: seq<T>, t: nat, row: seq<T>, ids: seq<nat>)
    requires t + |row| <= |all| && all[t .. t + |row|] == row
    requires |ids| == |row| && forall j :: 0 <= j < |ids| ==> ids[j] == |front| + t + j
    ensures forall j :: 0 <= j < |ids| ==> ids[j] < |front + all| && (front + all)[ids[j]] == row[j]
  {
    forall j | 0 <= j < |ids|
      ensures (front + all)[ids[j]] == row[j]
    {
      SliceAt(all, t, row, j);
    }
  }

  /** The elements of a paper that begins with `front` are those of `front`. */
  lemma StartsAt<T>(paper: seq<T>, front: seq<T>, j: nat)
    requires Starts(paper, front) && j < |front|
    ensures paper[j] == front[j]
  {
    assert paper[j] == paper[..|front|][j];
  }
}
