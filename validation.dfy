/**
 * Input validation of the sequence memory game: how one tap, appended to the
 * player's input, is judged against the sequence on show, and what a run of
 * taps inside one level yields.
 */
module Validation {

  /** What a tap leads to. Ignored: the guard or the touch/click filter
      dropped it; Mismatch: the game is over; LevelComplete: the next level is
      scheduled; Continue: the player keeps going. */
  datatype Verdict = Ignored | Continue | LevelComplete | Mismatch

  /** `p` is an initial part of `s`. */
  predicate IsPrefix(p: seq<nat>, s: seq<nat>)
  {
    |p| <= |s| && p == s[..|p|]
  }

  /** Judges the input `entered`, whose last element is the tap just made,
      against `target`. Only the last index is compared; an index past the end
      of `target` compares with nothing and is a mismatch. */
  function Judge(target: seq<nat>, entered: seq<nat>): (v: Verdict)
    requires |entered| > 0
    ensures v != Ignored
    ensures v == Mismatch <==> |entered| > |target| || entered[|entered| - 1] != target[|entered| - 1]
    ensures v == LevelComplete <==> |entered| == |target| && entered[|entered| - 1] == target[|target| - 1]
    ensures v == Continue <==> |entered| < |target| && entered[|entered| - 1] == target[|entered| - 1]
  {
    var i := |entered| - 1;
    if i >= |target| || entered[i] != target[i] then Mismatch
    else if |entered| == |target| then LevelComplete
    else Continue
  }

  /** When every earlier tap matched, a tap completes the level exactly when the
      input now equals the sequence, continues exactly when the input is a
      proper initial part of it, and is a mismatch otherwise. */
  lemma JudgeMeaning(target: seq<nat>, entered: seq<nat>)
    requires |entered| > 0
    requires IsPrefix(entered[..|entered| - 1], target)
    ensures Judge(target, entered) == LevelComplete <==> entered == target
    ensures Judge(target, entered) == Continue <==> IsPrefix(entered, target) && |entered| < |target|
    ensures Judge(target, entered) == Mismatch <==> !IsPrefix(entered, target)
  {
    var n := |entered|;
    var before := entered[..n - 1];
    assert entered == before + [entered[n - 1]];
    if n <= |target| {
      assert target[..n] == target[..n - 1] + [target[n - 1]];
    }
  }

  /** `n` taps ignored after the game ended. */
  function IgnoredTaps(n: nat): (vs: seq<Verdict>)
    ensures |vs| == n && forall i :: 0 <= i < n ==> vs[i] == Ignored
  {
    seq(n, _ => Ignored)
  }

  /** `n` taps that each let the player go on. */
  function Continues(n: nat): (vs: seq<Verdict>)
    ensures |vs| == n && forall i :: 0 <= i < n ==> vs[i] == Continue
  {
    seq(n, _ => Continue)
  }

  /** The verdicts of `taps` made one after the other while playing against
      `target` with `entered` already in the input and no timer firing in
      between. After a mismatch the game is over and later taps are ignored;
      after a completed level the state is still playing, so later taps are
      still judged against the same sequence. */
  function Replay(target: seq<nat>, entered: seq<nat>, taps: seq<nat>): (vs: seq<Verdict>)
    ensures |vs| == |taps|
    ensures |taps| > 0 ==> vs[0] != Ignored
    ensures forall i, j :: 0 <= i < j < |vs| && vs[i] == Mismatch ==> vs[j] == Ignored
    decreases |taps|
  {
    if taps == [] then []
    else
      var now := entered + [taps[0]];
      var v := Judge(target, now);
      if v == Mismatch then [Mismatch] + IgnoredTaps(|taps| - 1)
      else [v] + Replay(target, now, taps[1..])
  }

  /** Replaying two runs one after the other, when the first keeps the input
      an initial part of the sequence. */
  lemma {:induction false} ReplayAppend(target: seq<nat>, entered: seq<nat>, a: seq<nat>, b: seq<nat>)
    requires IsPrefix(entered + a, target)
    ensures Replay(target, entered, a + b) == Replay(target, entered, a) + Replay(target, entered + a, b)
    decreases |a|
  {
    if a == [] {
      assert a + b == b && entered + a == entered;
    } else {
      var now := entered + [a[0]];
      assert now + a[1..] == entered + a;
      var n := |now|;
      assert now[n - 1] == (entered + a)[n - 1] == target[n - 1];
      assert Judge(target, now) != Mismatch;
      assert (a + b)[0] == a[0] && (a + b)[1..] == a[1..] + b;
      ReplayAppend(target, now, a[1..], b);
    }
  }

  /** Tapping the rest of the sequence, from any point reached correctly,
      continues on every tap but the last, which completes the level. */
  lemma {:induction false} ReplayRest(target: seq<nat>, j: nat)
    requires j < |target|
    ensures Replay(target, target[..j], target[j..]) == Continues(|target| - j - 1) + [LevelComplete]
    decreases |target| - j
  {
    var now := target[..j] + [target[j]];
    assert now == target[..j + 1];
    if j + 1 < |target| {
      assert target[j..][1..] == target[j + 1..];
      ReplayRest(target, j + 1);
      assert Continues(|target| - j - 1) == [Continue] + Continues(|target| - j - 2);
    } else {
      assert target[j..][1..] == [];
    }
  }

  /** Tapping the whole sequence from an empty input: Continue for all taps
      but the last, LevelComplete on the last. */
  lemma ReplayWholeSequence(target: seq<nat>)
    requires |target| > 0
    ensures Replay(target, [], target) == Continues(|target| - 1) + [LevelComplete]
  {
    assert target[..0] == [] && target[0..] == target;
    ReplayRest(target, 0);
  }

  /** Taps that agree with the sequence before index `k` and differ at `k`
      continue before `k`, end the game at `k`, and whatever follows is ignored. */
  lemma {:induction false} ReplayDiverges(target: seq<nat>, taps: seq<nat>, k: nat)
    requires k < |target| && k < |taps|
    requires taps[..k] == target[..k] && taps[k] != target[k]
    ensures Replay(target, [], taps) == Continues(k) + [Mismatch] + IgnoredTaps(|taps| - k - 1)
  {
    assert taps[..0] == [] && taps[0..] == taps;
    ReplayDivergesFrom(target, taps, k, 0);
  }

  lemma {:induction false} ReplayDivergesFrom(target: seq<nat>, taps: seq<nat>, k: nat, j: nat)
    requires j <= k < |target| && k < |taps|
    requires taps[..k] == target[..k] && taps[k] != target[k]
    ensures Replay(target, taps[..j], taps[j..]) == Continues(k - j) + [Mismatch] + IgnoredTaps(|taps| - k - 1)
    decreases k - j
  {
    var now := taps[..j] + [taps[j]];
    assert now == taps[..j + 1];
    assert taps[j..][1..] == taps[j + 1..];
    if j < k {
      assert taps[j] == target[j] by { assert taps[..k][j] == target[..k][j]; }
      ReplayDivergesFrom(target, taps, k, j + 1);
      assert Continues(k - j) == [Continue] + Continues(k - j - 1);
    }
  }

  /** Once the input holds the whole sequence, the next tap has nothing to
      match and ends the game; later taps are ignored. */
  lemma TapPastTheEnd(target: seq<nat>, taps: seq<nat>)
    requires |taps| > 0
    ensures Replay(target, target, taps) == [Mismatch] + IgnoredTaps(|taps| - 1)
  {
    assert Judge(target, target + [taps[0]]) == Mismatch;
  }

  /** One tap too many: after the whole sequence, a further tap finds no
      element to match, so the level completes and the very next tap ends the
      game, and anything after it is ignored. */
  lemma ReplayOverTap(target: seq<nat>, extra: nat, rest: seq<nat>)
    requires |target| > 0
    ensures Replay(target, [], target + [extra] + rest) ==
      Continues(|target| - 1) + [LevelComplete, Mismatch] + IgnoredTaps(|rest|)
  {
    var taps := [extra] + rest;
    var whole := target + taps;
    assert target + [extra] + rest == whole;
    assert [] + target == target;
    ReplayAppend(target, [], target, taps);
    var first := Replay(target, [], target);
    var second := Replay(target, target, taps);
    assert Replay(target, [], whole) == first + second;
    ReplayWholeSequence(target);
    TapPastTheEnd(target, taps);
    var c := Continues(|target| - 1);
    var ig := IgnoredTaps(|rest|);
    assert first == c + [LevelComplete];
    assert second == [Mismatch] + ig;
    Regroup(c, LevelComplete, Mismatch, ig);
  }

  /** Sequence regrouping used by ReplayOverTap. */
  lemma Regroup<T>(a: seq<T>, x: T, y: T, d: seq<T>)
    ensures (a + [x]) + ([y] + d) == a + [x, y] + d
  {
  }
}
