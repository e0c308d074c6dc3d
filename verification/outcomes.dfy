/**
 * What one external render (an OpenSCAD run, or a run of the per-radius
 * generator) came to, and the counts and failure lists the sweeps keep.
 * The process call itself is not modelled: its outcome is an input.
 */
module Outcomes {

  /**
   * `Exited` carries the process's exit status; `TimedOut` is the
   * timeout firing; `Raised` is any other exception around the call.
   */
  datatype RenderOutcome = Exited(status: int) | TimedOut | Raised

  /** A render counts as done only when the process exited with status 0. */
  predicate Succeeded(o: RenderOutcome) {
    o.Exited? && o.status == 0
  }

  /** Number of successful renders. */
  function CountSucceeded(outcomes: seq<RenderOutcome>): (n: nat)
    ensures n <= |outcomes|
    decreases |outcomes|
  {
    if |outcomes| == 0 then 0
    else
      CountSucceeded(outcomes[..|outcomes| - 1])
      + (if Succeeded(outcomes[|outcomes| - 1]) then 1 else 0)
  }

  /** Every render succeeded exactly when the count of successes is the number of renders. */
  lemma {:induction false} CountSucceededAll(outcomes: seq<RenderOutcome>)
    ensures CountSucceeded(outcomes) == |outcomes| <==> forall i :: 0 <= i < |outcomes| ==> Succeeded(outcomes[i])
    decreases |outcomes|
  {
    if |outcomes| > 0 {
      var n := |outcomes| - 1;
      var init := outcomes[..n];
      CountSucceededAll(init);
      assert forall i :: 0 <= i < n ==> init[i] == outcomes[i];
    }
  }

  /** Counting splits over concatenation: consecutive sweeps add up. */
  lemma {:induction false} CountSucceededAppend(a: seq<RenderOutcome>, b: seq<RenderOutcome>)
    ensures CountSucceeded(a + b) == CountSucceeded(a) + CountSucceeded(b)
    decreases |b|
  {
    if |b| > 0 {
      assert (a + b)[..|a + b| - 1] == a + b[..|b| - 1];
      CountSucceededAppend(a, b[..|b| - 1]);
    } else {
      assert a + b == a;
    }
  }

  /** Counting a longer prefix adds the count of the renders in between. */
  lemma CountSucceededPrefix(outcomes: seq<RenderOutcome>, i: nat, j: nat)
    requires i <= j <= |outcomes|
    ensures CountSucceeded(outcomes[..j]) == CountSucceeded(outcomes[..i]) + CountSucceeded(outcomes[i..j])
  {
    assert outcomes[..i] + outcomes[i..j] == outcomes[..j];
    CountSucceededAppend(outcomes[..i], outcomes[i..j]);
  }

  /** A running tally stays exact when the count of the next stretch is added. */
  lemma CountSucceededExtend(outcomes: seq<RenderOutcome>, i: nat, j: nat, counted: nat, more: nat)
    requires i <= j <= |outcomes|
    requires counted == CountSucceeded(outcomes[..i])
    requires more == CountSucceeded(outcomes[i..j])
    ensures counted + more == CountSucceeded(outcomes[..j])
  {
    CountSucceededPrefix(outcomes, i, j);
  }

  /**
   * The items whose render failed, in their original order: what a loop
   * that appends each failed item to a list collects.
   */
  function FailedItems<T>(items: seq<T>, outcomes: seq<RenderOutcome>): (r: seq<T>)
    requires |items| == |outcomes|
    ensures |r| + CountSucceeded(outcomes) == |items|
    decreases |items|
  {
    if |items| == 0 then []
    else
      FailedItems(items[..|items| - 1], outcomes[..|outcomes| - 1])
      + (if Succeeded(outcomes[|outcomes| - 1]) then [] else [items[|items| - 1]])
  }

  /** An item is listed as failed exactly when some occurrence of it failed. */
  lemma {:induction false} FailedItemsMembers<T>(items: seq<T>, outcomes: seq<RenderOutcome>, x: T)
    requires |items| == |outcomes|
    ensures x in FailedItems(items, outcomes)
      <==> exists i :: 0 <= i < |items| && items[i] == x && !Succeeded(outcomes[i])
    decreases |items|
  {
    if |items| > 0 {
      var n := |items| - 1;
      FailedItemsMembers(items[..n], outcomes[..n], x);
      if exists i :: 0 <= i < |items| && items[i] == x && !Succeeded(outcomes[i]) {
        var i :| 0 <= i < |items| && items[i] == x && !Succeeded(outcomes[i]);
        if i < n {
          assert items[..n][i] == x && outcomes[..n][i] == outcomes[i];
        }
      }
    }
  }

  /** Failures of a strictly increasing list are listed strictly increasing. */
  lemma {:induction false} FailedItemsIncreasing(items: seq<int>, outcomes: seq<RenderOutcome>)
    requires |items| == |outcomes|
    requires forall i, j :: 0 <= i < j < |items| ==> items[i] < items[j]
    ensures forall i, j :: 0 <= i < j < |FailedItems(items, outcomes)| ==>
      FailedItems(items, outcomes)[i] < FailedItems(items, outcomes)[j]
    decreases |items|
  {
    if |items| > 0 {
      var n := |items| - 1;
      var earlier := FailedItems(items[..n], outcomes[..n]);
      FailedItemsIncreasing(items[..n], outcomes[..n]);
      forall k | 0 <= k < |earlier|
        ensures earlier[k] < items[n]
      {
        FailedItemsMembers(items[..n], outcomes[..n], earlier[k]);
      }
    }
  }
}
