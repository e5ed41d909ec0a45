/** Picking some items of a list by their positions: none lost, doubled or moved. */
module Positions {

  ghost predicate Ascending(at: seq<nat>) { forall i, j :: 0 <= i < j < |at| ==> at[i] < at[j] }

  /** The positions `at` go up and are exactly those marked in `chosen`. */
  ghost predicate Selects(chosen: seq<bool>, at: seq<nat>) {
    && Ascending(at)
    && (forall i :: 0 <= i < |at| ==> at[i] < |chosen|)
    && (forall k: nat :: k < |chosen| ==> (chosen[k] <==> k in at))
  }

  lemma PositionOf(chosen: seq<bool>, at: seq<nat>, k: nat) returns (n: nat)
    requires Selects(chosen, at) && k < |chosen| && chosen[k]
    ensures n < |at| && at[n] == k
  {
    n :| 0 <= n < |at| && at[n] == k;
  }

  /** Positions in a list, given those in the rest and whether the first counts. */
  function Consed(first: bool, rest: seq<nat>): (r: seq<nat>)
    ensures |r| == |rest| + if first then 1 else 0
  {
    (if first then [0] else []) + seq(|rest|, i requires 0 <= i < |rest| => rest[i] + 1)
  }

  lemma ConsedAt(first: bool, rest: seq<nat>, k: nat)
    ensures k in Consed(first, rest) <==> if k == 0 then first else k - 1 in rest
  {
    var at, n := Consed(first, rest), if first then 1 else 0;
    if k > 0 && k - 1 in rest {
      var i :| 0 <= i < |rest| && rest[i] == k - 1;
      assert at[n + i] == k;
    }
    if first { assert at[0] == 0; }
  }

  lemma ConsedSelects(chosen: seq<bool>, rest: seq<nat>)
    requires chosen != [] && Selects(chosen[1..], rest)
    ensures Selects(chosen, Consed(chosen[0], rest))
  {
    var at, n := Consed(chosen[0], rest), if chosen[0] then 1 else 0;
    assert forall i :: n <= i < |at| ==> at[i] == rest[i - n] + 1;
    forall k: nat | k < |chosen| ensures chosen[k] <==> k in at {
      ConsedAt(chosen[0], rest, k);
      if k > 0 { assert chosen[k] == chosen[1..][k - 1]; }
    }
  }

  /** Positions in a list, given those before its last item. */
  function Snoced(before: seq<nat>, n: nat, last: bool): seq<nat> { if last then before + [n] else before }

  lemma SnocedSelects(chosen: seq<bool>, before: seq<nat>)
    requires chosen != [] && Selects(chosen[..|chosen| - 1], before)
    ensures Selects(chosen, Snoced(before, |chosen| - 1, chosen[|chosen| - 1]))
  {
    var n := |chosen| - 1;
    var more := before + [n];
    assert forall k :: k in before ==> k in more;
    assert more[|before|] == n;
    forall k: nat | k < n ensures chosen[k] <==> k in before { assert chosen[k] == chosen[..n][k]; }
  }

  /** `picked` are the items at the positions `at`, which are those chosen. */
  ghost predicate Picked<T>(items: seq<T>, chosen: seq<bool>, at: seq<nat>, picked: seq<T>) {
    && |chosen| == |items| && Selects(chosen, at) && |picked| == |at|
    && forall i :: 0 <= i < |at| ==> picked[i] == items[at[i]]
  }

  lemma PickedSnoc<T>(items: seq<T>, chosen: seq<bool>, before: seq<nat>, picked: seq<T>)
    requires |items| == |chosen| > 0
    requires Picked(items[..|items| - 1], chosen[..|items| - 1], before, picked)
    ensures var n := |items| - 1;
      Picked(items, chosen, Snoced(before, n, chosen[n]), picked + if chosen[n] then [items[n]] else [])
  {
    SnocedSelects(chosen, before);
  }

  lemma PickedCons<T>(items: seq<T>, chosen: seq<bool>, rest: seq<nat>, picked: seq<T>)
    requires |items| == |chosen| > 0 && Picked(items[1..], chosen[1..], rest, picked)
    ensures Picked(items, chosen, Consed(chosen[0], rest), (if chosen[0] then [items[0]] else []) + picked)
  {
    var at, n := Consed(chosen[0], rest), if chosen[0] then 1 else 0;
    var all := (if chosen[0] then [items[0]] else []) + picked;
    ConsedSelects(chosen, rest);
    forall i | 0 <= i < |at| ensures all[i] == items[at[i]] {
      if i >= n { assert at[i] == rest[i - n] + 1 && all[i] == picked[i - n] == items[1..][rest[i - n]]; }
    }
  }
}
