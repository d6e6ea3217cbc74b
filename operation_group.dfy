/**
 * `AsyncOperationGroup`: a batch of engine operations with a mean progress,
 * an all-done test and a broadcast of the activation flag. The class is the
 * same in both loader namespaces.
 *
 * Between two polls the engine advances the handles it gave out; the model
 * receives that evolution as a sequence of observations, one per poll.
 */
module OperationGroup {
  import opened SceneEngine

  function Sum(ops: seq<Operation>): real {
    if |ops| == 0 then 0.0 else Sum(ops[..|ops| - 1]) + ops[|ops| - 1].progress
  }

  /** `operations.Count == 0 ? 0 : operations.Average(o => o.progress)`. */
  function MeanProgress(ops: seq<Operation>): real {
    if |ops| == 0 then 0.0 else Sum(ops) / (|ops| as real)
  }

  /** `operations.All(o => o.isDone)`. */
  predicate AllDone(ops: seq<Operation>) {
    forall i :: 0 <= i < |ops| ==> ops[i].isDone
  }

  /** The handles after `allowSceneActivation = allow` has been set on each of them. */
  function WithActivation(ops: seq<Operation>, allow: bool): (r: seq<Operation>)
    ensures |r| == |ops|
    ensures forall i :: 0 <= i < |ops| ==>
      r[i].allowActivation == allow && r[i].progress == ops[i].progress && r[i].isDone == ops[i].isDone
  {
    seq(|ops|, i requires 0 <= i < |ops| => ops[i].(allowActivation := allow))
  }

  /**
   * The handles after the engine has advanced them to the statuses `st`
   * (one per handle; handles without a status keep theirs). The engine never
   * touches the activation flag.
   */
  function Observe(ops: seq<Operation>, st: seq<Status>): (r: seq<Operation>)
    ensures |r| == |ops|
    ensures forall i :: 0 <= i < |ops| ==> r[i].allowActivation == ops[i].allowActivation
  {
    seq(|ops|, i requires 0 <= i < |ops| =>
      if i < |st| then ops[i].(progress := st[i].progress, isDone := st[i].isDone) else ops[i])
  }

  /** The handles as the `j`-th poll sees them: `ops0`, advanced by the first `j` observations. */
  function StatusAt(ops0: seq<Operation>, obs: seq<seq<Status>>, j: nat): (r: seq<Operation>)
    requires j <= |obs|
    ensures |r| == |ops0|
  {
    if j == 0 then ops0 else Observe(StatusAt(ops0, obs, j - 1), obs[j - 1])
  }

  /** The batch becomes done at one of the polls the observations allow. */
  predicate FinishesWithin(ops0: seq<Operation>, obs: seq<seq<Status>>) {
    exists j :: 0 <= j <= |obs| && AllDone(StatusAt(ops0, obs, j))
  }

  // ---------------------------------------------------------------- lemmas

  lemma {:induction false} SumBounds(ops: seq<Operation>, lo: real, hi: real)
    requires forall i :: 0 <= i < |ops| ==> lo <= ops[i].progress <= hi
    ensures lo * (|ops| as real) <= Sum(ops) <= hi * (|ops| as real)
  {
    if |ops| > 0 {
      SumBounds(ops[..|ops| - 1], lo, hi);
    }
  }

  /**
   * The mean lies between the smallest and the largest progress: with every
   * operation's progress in [lo, hi], so is the batch's.
   */
  lemma MeanProgressBounds(ops: seq<Operation>, lo: real, hi: real)
    requires |ops| > 0
    requires forall i :: 0 <= i < |ops| ==> lo <= ops[i].progress <= hi
    ensures lo <= MeanProgress(ops) <= hi
  {
    SumBounds(ops, lo, hi);
    var n := |ops| as real;
    assert lo * n / n <= Sum(ops) / n <= hi * n / n;
  }

  /** Progress of an empty batch is 0, and an empty batch is done at once. */
  lemma EmptyBatch()
    ensures MeanProgress([]) == 0.0 && AllDone([])
  {
  }

  lemma {:induction false} SumIgnoresActivation(ops: seq<Operation>, allow: bool)
    ensures Sum(WithActivation(ops, allow)) == Sum(ops)
  {
    if |ops| > 0 {
      var w := WithActivation(ops, allow);
      assert w[..|ops| - 1] == WithActivation(ops[..|ops| - 1], allow);
      SumIgnoresActivation(ops[..|ops| - 1], allow);
    }
  }

  /** Setting the activation flag changes neither the batch's progress nor whether it is done. */
  lemma ActivationKeepsProgress(ops: seq<Operation>, allow: bool)
    ensures MeanProgress(WithActivation(ops, allow)) == MeanProgress(ops)
    ensures AllDone(WithActivation(ops, allow)) == AllDone(ops)
  {
    SumIgnoresActivation(ops, allow);
  }

  lemma ObserveCommutesWithActivation(ops: seq<Operation>, st: seq<Status>, allow: bool)
    ensures Observe(WithActivation(ops, allow), st) == WithActivation(Observe(ops, st), allow)
  {
  }

  lemma ActivationOverwrites(ops: seq<Operation>, a: bool, b: bool)
    ensures WithActivation(WithActivation(ops, a), b) == WithActivation(ops, b)
  {
  }

  // ------------------------------------------------------------- the class

  class AsyncOperationGroup {
    var operations: seq<Operation>

    constructor ()
      ensures operations == []
    {
      operations := [];
    }

    function Progress(): (p: real)
      reads this
      ensures |operations| == 0 ==> p == 0.0
      ensures |operations| > 0 ==> p * (|operations| as real) == Sum(operations)
    {
      MeanProgress(operations)
    }

    function IsDone(): (done: bool)
      reads this
      ensures done <==> forall i :: 0 <= i < |operations| ==> operations[i].isDone
    {
      AllDone(operations)
    }

    method Add(op: Operation)
      modifies this`operations
      ensures operations == old(operations) + [op]
    {
      operations := operations + [op];
    }

    /** Sets the activation flag on every held operation and changes nothing else. */
    method AllowSceneActivation(allow: bool)
      modifies this
      ensures operations == WithActivation(old(operations), allow)
    {
      var i := 0;
      while i < |operations|
        invariant 0 <= i <= |operations| == |old(operations)|
        invariant operations[..i] == WithActivation(old(operations), allow)[..i]
        invariant operations[i..] == old(operations)[i..]
      {
        operations := operations[..i] + [operations[i].(allowActivation := allow)] + operations[i + 1..];
        i := i + 1;
      }
    }

    /** The engine advances the held handles between two polls. */
    method Advance(st: seq<Status>)
      modifies this
      ensures operations == Observe(old(operations), st)
    {
      operations := Observe(operations, st);
    }
  }

  /**
   * The unload wait, `while (!operationGroup.IsDone) await Task.Delay(100);`:
   * each delay is one observation. `done` is false when the observations run
   * out first (the source would go on waiting).
   */
  method WaitUntilDone(batch: AsyncOperationGroup, obs: seq<seq<Status>>) returns (done: bool)
    modifies batch
    ensures done <==> FinishesWithin(old(batch.operations), obs)
    ensures done ==> batch.IsDone()
  {
    ghost var ops0 := batch.operations;
    var k := 0;
    while !batch.IsDone() && k < |obs|
      invariant 0 <= k <= |obs|
      invariant batch.operations == StatusAt(ops0, obs, k)
      invariant forall j :: 0 <= j < k ==> !AllDone(StatusAt(ops0, obs, j))
    {
      batch.Advance(obs[k]);
      k := k + 1;
    }
    done := batch.IsDone();
    if !done {
      assert forall j :: 0 <= j <= |obs| ==> !AllDone(StatusAt(ops0, obs, j));
    }
  }
}
