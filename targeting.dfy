/** The two target-selection loops of the game, stated on plain sequences so
    that towers (src/entities/tower.py `find_target`, `find_targets`) and
    monsters (src/entities/monster.py `choose_new_target`) share them.

    Candidates are given as parallel sequences: `d[i]` is the squared
    distance to candidate `i` and `ok[i]` says whether it is eligible. Both
    functions are defined from the end of the roster, which is the order in
    which the game's loops extend their running result. */
module Targeting {
  import opened Common

  /** The running minimum `closest = inf; for c: if ok and dist < closest:
      closest = c`. The comparison is strict, so among equally near
      candidates the earliest wins. */
  function Nearest(d: seq<real>, ok: seq<bool>): (r: Option<nat>)
    requires |d| == |ok|
    ensures r.Some? ==> r.value < |d| && ok[r.value]
    ensures r.None? <==> forall i :: 0 <= i < |d| ==> !ok[i]
    ensures r.Some? ==> forall i :: 0 <= i < |d| && ok[i] ==> d[r.value] <= d[i]
    ensures r.Some? ==> forall i :: 0 <= i < r.value && ok[i] ==> d[r.value] < d[i]
    decreases |d|
  {
    if |d| == 0 then None
    else
      var prev := Nearest(d[..|d| - 1], ok[..|ok| - 1]);
      if ok[|d| - 1] && (prev.None? || d[|d| - 1] < d[prev.value]) then Some(|d| - 1)
      else prev
  }

  /** One more candidate extends the running minimum the way the game's loop
      does. */
  lemma NearestStep(d: seq<real>, ok: seq<bool>, i: nat)
    requires |d| == |ok| && i < |d|
    ensures var prev := Nearest(d[..i], ok[..i]);
      Nearest(d[..i + 1], ok[..i + 1])
        == if ok[i] && (prev.None? || d[i] < d[prev.value]) then Some(i) else prev
  {
    assert d[..i + 1][..i] == d[..i] && ok[..i + 1][..i] == ok[..i];
  }

  /** The running minimum's loop step: taking candidate `i` iff it is
      eligible and strictly nearer than the best so far keeps the best so far
      equal to `Nearest` of the candidates seen. */
  lemma NearestLoopStep(d: seq<real>, ok: seq<bool>, i: nat, best: Option<nat>, bestDist: real)
    requires |d| == |ok| && i < |d|
    requires best == Nearest(d[..i], ok[..i])
    requires best.Some? ==> best.value < i && bestDist == d[best.value]
    ensures var next := if ok[i] && (best.None? || d[i] < bestDist) then Some(i) else best;
      && next == Nearest(d[..i + 1], ok[..i + 1])
      && (next.Some? ==> next.value < i + 1 && d[next.value] == (if next == Some(i) then d[i] else bestDist))
  {
    NearestStep(d, ok, i);
  }

  /** The nearest eligible candidate is the only index that is eligible,
      no farther than every eligible candidate and strictly nearer than every
      eligible candidate before it. */
  lemma NearestUnique(d: seq<real>, ok: seq<bool>, j: nat)
    requires |d| == |ok| && j < |d| && ok[j]
    requires forall i :: 0 <= i < |d| && ok[i] ==> d[j] <= d[i]
    requires forall i :: 0 <= i < j && ok[i] ==> d[j] < d[i]
    ensures Nearest(d, ok) == Some(j)
  {
  }

  /** The eligible candidates, in roster order. */
  function Select<T>(s: seq<T>, ok: seq<bool>): (r: seq<T>)
    requires |s| == |ok|
    ensures |r| <= |s|
    decreases |s|
  {
    if |s| == 0 then []
    else Select(s[..|s| - 1], ok[..|ok| - 1]) + (if ok[|s| - 1] then [s[|s| - 1]] else [])
  }

  /** Exactly the eligible candidates are selected. */
  lemma {:induction false} SelectSpec<T>(s: seq<T>, ok: seq<bool>)
    requires |s| == |ok|
    ensures forall x :: x in Select(s, ok) ==> exists i :: 0 <= i < |s| && ok[i] && s[i] == x
    ensures forall i :: 0 <= i < |s| && ok[i] ==> s[i] in Select(s, ok)
    decreases |s|
  {
    if |s| > 0 {
      var n := |s| - 1;
      SelectSpec(s[..n], ok[..n]);
      var prev := Select(s[..n], ok[..n]);
      assert Select(s, ok) == prev + (if ok[n] then [s[n]] else []);
      forall x | x in Select(s, ok)
        ensures exists i :: 0 <= i < |s| && ok[i] && s[i] == x
      {
        if x in prev {
          var i :| 0 <= i < n && ok[..n][i] && s[..n][i] == x;
          assert ok[i] && s[i] == x;
        } else {
          assert ok[n] && s[n] == x;
        }
      }
      forall i | 0 <= i < |s| && ok[i]
        ensures s[i] in Select(s, ok)
      {
        if i < n {
          assert ok[..n][i] && s[..n][i] == s[i];
        }
      }
    }
  }

  lemma SelectStep<T>(s: seq<T>, ok: seq<bool>, i: nat)
    requires |s| == |ok| && i < |s|
    ensures Select(s[..i + 1], ok[..i + 1]) == Select(s[..i], ok[..i]) + (if ok[i] then [s[i]] else [])
  {
    assert s[..i + 1][..i] == s[..i] && ok[..i + 1][..i] == ok[..i];
  }

  lemma SelectSnoc<T>(s: seq<T>, ok: seq<bool>, x: T, b: bool)
    requires |s| == |ok|
    ensures Select(s + [x], ok + [b]) == Select(s, ok) + (if b then [x] else [])
  {
    assert (s + [x])[..|s|] == s && (ok + [b])[..|ok|] == ok;
  }

  /** `targets = []; for c: if ok and len(targets) < k: targets.append(c)`. */
  function FirstK<T>(s: seq<T>, ok: seq<bool>, k: nat): (r: seq<T>)
    requires |s| == |ok|
    decreases |s|
  {
    if |s| == 0 then []
    else
      var prev := FirstK(s[..|s| - 1], ok[..|ok| - 1], k);
      if ok[|s| - 1] && |prev| < k then prev + [s[|s| - 1]] else prev
  }

  lemma FirstKStep<T>(s: seq<T>, ok: seq<bool>, k: nat, i: nat)
    requires |s| == |ok| && i < |s|
    ensures var prev := FirstK(s[..i], ok[..i], k);
      FirstK(s[..i + 1], ok[..i + 1], k) == if ok[i] && |prev| < k then prev + [s[i]] else prev
  {
    assert s[..i + 1][..i] == s[..i] && ok[..i + 1][..i] == ok[..i];
  }

  /** The accumulating loop keeps exactly the first `k` eligible candidates
      (all of them when there are fewer). */
  lemma {:induction false} FirstKIsPrefix<T>(s: seq<T>, ok: seq<bool>, k: nat)
    requires |s| == |ok|
    ensures FirstK(s, ok, k) == Select(s, ok)[..MinNat(k, |Select(s, ok)|)]
    decreases |s|
  {
    if |s| > 0 {
      var n := |s| - 1;
      FirstKIsPrefix(s[..n], ok[..n], k);
      var sel := Select(s[..n], ok[..n]);
      if ok[n] && MinNat(k, |sel|) < k {
        assert Select(s, ok) == sel + [s[n]];
        assert Select(s, ok)[..MinNat(k, |sel| + 1)] == sel + [s[n]];
      } else if ok[n] {
        assert Select(s, ok) == sel + [s[n]];
        assert Select(s, ok)[..k] == sel[..k];
      }
    }
  }

  /** At most `k` targets, every one of them eligible. */
  lemma FirstKBounded<T>(s: seq<T>, ok: seq<bool>, k: nat)
    requires |s| == |ok|
    ensures |FirstK(s, ok, k)| <= k
    ensures forall x :: x in FirstK(s, ok, k) ==> exists i :: 0 <= i < |s| && ok[i] && s[i] == x
  {
    FirstKIsPrefix(s, ok, k);
    SelectSpec(s, ok);
    var sel := Select(s, ok);
    forall x | x in FirstK(s, ok, k)
      ensures x in sel
    {
      var j :| 0 <= j < MinNat(k, |sel|) && sel[..MinNat(k, |sel|)][j] == x;
      assert sel[j] == x;
    }
  }
}
