/** Smooth weighted round-robin (`getWeightedBackend`): every eligible backend's
    current weight grows by its weight, the first backend with the strictly
    greatest current weight is chosen, and the chosen one gives back the total.

    `Step` is the selection on plain integers; `GetWeightedBackend` is proved to
    perform it on the backend objects. */
module Scheduler {
  import opened Backends

  function Sum(s: seq<int>): int {
    if |s| == 0 then 0 else Sum(s[..|s| - 1]) + s[|s| - 1]
  }

  lemma SumSnoc(s: seq<int>, i: int)
    requires 0 <= i < |s|
    ensures Sum(s[..i + 1]) == Sum(s[..i]) + s[i]
  {
    assert s[..i + 1][..i] == s[..i];
  }

  /** Each current weight plus its weight. */
  function AddWeights(cw: seq<int>, w: seq<int>): (inc: seq<int>)
    requires |cw| == |w|
    ensures |inc| == |cw|
  {
    if |cw| == 0 then [] else AddWeights(cw[..|cw| - 1], w[..|w| - 1]) + [cw[|cw| - 1] + w[|w| - 1]]
  }

  lemma {:induction false} AddWeightsAt(cw: seq<int>, w: seq<int>)
    requires |cw| == |w|
    ensures forall i :: 0 <= i < |cw| ==> AddWeights(cw, w)[i] == cw[i] + w[i]
  {
    if |cw| > 0 {
      AddWeightsAt(cw[..|cw| - 1], w[..|w| - 1]);
    }
  }

  lemma AddedAll(cw: seq<int>, w: seq<int>, cw1: seq<int>)
    requires |cw| == |w| == |cw1|
    requires forall j :: 0 <= j < |cw| ==> cw1[j] == cw[j] + w[j]
    ensures cw1 == AddWeights(cw, w)
  {
    AddWeightsAt(cw, w);
  }

  /** The index the selection loop settles on: scanning left to right from a best
      value of -1, a later entry wins only when strictly greater. -1 when no entry
      exceeds -1. */
  function Pick(inc: seq<int>): (k: int)
    ensures -1 <= k < |inc|
  {
    if |inc| == 0 then -1
    else
      var p := Pick(inc[..|inc| - 1]);
      var best := if p == -1 then -1 else inc[p];
      if inc[|inc| - 1] > best then |inc| - 1 else p
  }

  /** One more step of the selection loop. */
  lemma PickSnoc(inc: seq<int>, i: int)
    requires 0 <= i < |inc|
    ensures var p := Pick(inc[..i]);
      Pick(inc[..i + 1]) == if inc[i] > (if p == -1 then -1 else inc[p]) then i else p
  {
    assert inc[..i + 1][..i] == inc[..i];
  }

  /** What `Pick` chooses: -1 exactly when no entry exceeds -1, and otherwise the
      first entry of greatest value. */
  lemma {:induction false} PickSpec(inc: seq<int>)
    ensures var k := Pick(inc);
      (k == -1 <==> forall j :: 0 <= j < |inc| ==> inc[j] <= -1)
      && (k >= 0 ==> forall j :: 0 <= j < |inc| ==> inc[j] <= inc[k])
      && (k >= 0 ==> forall j :: 0 <= j < k ==> inc[j] < inc[k])
  {
    if |inc| > 0 {
      var n := |inc| - 1;
      PickSpec(inc[..n]);
      assert forall j :: 0 <= j < n ==> inc[..n][j] == inc[j];
    }
  }

  /** One call of `getWeightedBackend` on weights `w` and current weights `cw`:
      the chosen index (or -1) and the new current weights. */
  function Step(w: seq<int>, cw: seq<int>): (r: (int, seq<int>))
    requires |w| == |cw|
    ensures -1 <= r.0 < |w| && |r.1| == |w|
  {
    var inc := AddWeights(cw, w);
    var k := Pick(inc);
    if k == -1 then (k, inc) else (k, inc[k := inc[k] - Sum(w)])
  }

  /** `Step` once the selection loop has chosen index `k`, stated on its parts
      (the incremented weights, the index, the total and the new weights). */
  lemma StepTaken(w: seq<int>, cw: seq<int>, inc: seq<int>, k: int, total: int, cw1: seq<int>)
    requires |w| == |cw| && inc == AddWeights(cw, w) && k == Pick(inc) && k != -1
    requires total == Sum(w) && cw1 == inc[k := inc[k] - total]
    ensures Step(w, cw) == (k, cw1)
  {
  }

  /** `Step` when the selection loop chose nothing. */
  lemma StepNone(w: seq<int>, cw: seq<int>, inc: seq<int>, k: int)
    requires |w| == |cw| && inc == AddWeights(cw, w) && k == Pick(inc) && k == -1
    ensures Step(w, cw) == (k, inc)
  {
  }

  // ---------------------------------------------------------------- sums

  lemma {:induction false} SumAdd(cw: seq<int>, w: seq<int>)
    requires |cw| == |w|
    ensures Sum(AddWeights(cw, w)) == Sum(cw) + Sum(w)
  {
    if |cw| > 0 {
      var n := |cw| - 1;
      assert AddWeights(cw, w)[..n] == AddWeights(cw[..n], w[..n]);
      SumAdd(cw[..n], w[..n]);
    }
  }

  lemma {:induction false} SumUpdate(s: seq<int>, k: nat, v: int)
    requires k < |s|
    ensures Sum(s[k := v]) == Sum(s) - s[k] + v
  {
    var n := |s| - 1;
    if k < n {
      assert s[k := v][..n] == s[..n][k := v];
      SumUpdate(s[..n], k, v);
    } else {
      assert s[k := v][..n] == s[..n];
    }
  }

  /** When a backend is chosen the current weights keep their sum (the chosen one
      gives back exactly what all of them gained); when none is chosen they gain
      the total weight. */
  lemma StepSum(w: seq<int>, cw: seq<int>)
    requires |w| == |cw|
    ensures Step(w, cw).0 != -1 ==> Sum(Step(w, cw).1) == Sum(cw)
    ensures Step(w, cw).0 == -1 ==> Sum(Step(w, cw).1) == Sum(cw) + Sum(w)
  {
    var inc := AddWeights(cw, w);
    var k := Pick(inc);
    SumAdd(cw, w);
    if k != -1 {
      StepTaken(w, cw, inc, k, Sum(w), inc[k := inc[k] - Sum(w)]);
      SumUpdate(inc, k, inc[k] - Sum(w));
    } else {
      StepNone(w, cw, inc, k);
    }
  }

  /** Nothing is chosen only when every incremented current weight is at most -1,
      which needs some weight or current weight to be negative. */
  lemma NoneChosen(w: seq<int>, cw: seq<int>)
    requires |w| == |cw|
    ensures Step(w, cw).0 == -1 <==> forall j :: 0 <= j < |w| ==> cw[j] + w[j] <= -1
    ensures (forall j :: 0 <= j < |w| ==> w[j] >= 0 && cw[j] >= 0) && |w| > 0 ==> Step(w, cw).0 != -1
  {
    var inc := AddWeights(cw, w);
    AddWeightsAt(cw, w);
    PickSpec(inc);
    if |w| > 0 && forall j :: 0 <= j < |w| ==> w[j] >= 0 && cw[j] >= 0 {
      assert inc[0] >= 0;
    }
  }

  // ---------------------------------------------------------------- a worked schedule

  /** `n` selections in a row: the chosen indices and the final current weights. */
  function Run(w: seq<int>, cw: seq<int>, n: nat): (seq<int>, seq<int>)
    requires |w| == |cw|
    decreases n
  {
    if n == 0 then ([], cw)
    else
      var s := Step(w, cw);
      var rest := Run(w, s.1, n - 1);
      ([s.0] + rest.0, rest.1)
  }

  /** `Pick` is determined by its contract. */
  lemma {:induction false} PickIs(inc: seq<int>, k: int)
    requires 0 <= k < |inc| && inc[k] > -1
    requires forall j :: 0 <= j < |inc| ==> inc[j] <= inc[k]
    requires forall j :: 0 <= j < k ==> inc[j] < inc[k]
    ensures Pick(inc) == k
  {
    PickSpec(inc);
  }

  lemma {:induction false} StepIs(w: seq<int>, cw: seq<int>, inc: seq<int>, k: int, r: seq<int>)
    requires |w| == |cw| && inc == AddWeights(cw, w)
    requires 0 <= k < |inc| && inc[k] > -1
    requires forall j :: 0 <= j < |inc| ==> inc[j] <= inc[k]
    requires forall j :: 0 <= j < k ==> inc[j] < inc[k]
    requires r == inc[k := inc[k] - Sum(w)]
    ensures Step(w, cw) == (k, r)
  {
    PickIs(inc, k);
  }

  lemma SumOfThree(w: seq<int>)
    requires |w| == 3
    ensures Sum(w) == w[0] + w[1] + w[2]
  {
    assert w[..2][..1] == w[..1] && w[..1][..0] == [];
    assert Sum(w[..1]) == w[0];
    assert Sum(w[..2]) == w[0] + w[1];
  }

  lemma FiveOneOnePicks()
    ensures [0] + ([0] + ([0] + ([1] + ([0] + ([0] + ([2] + [])))))) == [0, 0, 0, 1, 0, 0, 2]
  {
    assert [2] + [] == [2];
    assert [0] + [2] == [0, 2];
    assert [0] + [0, 2] == [0, 0, 2];
    assert [1] + [0, 0, 2] == [1, 0, 0, 2];
    assert [0] + [1, 0, 0, 2] == [0, 1, 0, 0, 2];
    assert [0] + [0, 1, 0, 0, 2] == [0, 0, 1, 0, 0, 2];
  }

  /** `Step` on three backends, by cases on which one wins. */
  lemma StepOfThree(w: seq<int>, cw: seq<int>, k: int, r: seq<int>)
    requires |w| == 3 && |cw| == 3 && 0 <= k < 3
    requires var a, b, c := cw[0] + w[0], cw[1] + w[1], cw[2] + w[2];
      (k == 0 ==> a > -1 && a >= b && a >= c)
      && (k == 1 ==> b > -1 && a < b && b >= c)
      && (k == 2 ==> c > -1 && a < c && b < c)
      && r == [a, b, c][k := [a, b, c][k] - (w[0] + w[1] + w[2])]
    ensures Step(w, cw) == (k, r)
  {
    SumOfThree(w);
    var inc := [cw[0] + w[0], cw[1] + w[1], cw[2] + w[2]];
    AddWeightsAt(cw, w);
    assert AddWeights(cw, w) == inc;
    StepIs(w, cw, inc, k, r);
  }

  lemma FiveOneOneSteps(w: seq<int>) returns (c1: seq<int>, c2: seq<int>, c3: seq<int>, c4: seq<int>, c5: seq<int>, c6: seq<int>)
    requires w == [5, 1, 1]
    ensures |c1| == |c2| == |c3| == |c4| == |c5| == |c6| == 3
    ensures Step(w, w) == (0, c1) && Step(w, c1) == (0, c2) && Step(w, c2) == (0, c3)
    ensures Step(w, c3) == (1, c4) && Step(w, c4) == (0, c5) && Step(w, c5) == (0, c6)
    ensures Step(w, c6) == (2, w)
  {
    c1, c2, c3, c4, c5, c6 := [3, 2, 2], [1, 3, 3], [-1, 4, 4], [4, -2, 5], [2, -1, 6], [0, 0, 7];
    StepOfThree(w, w, 0, c1);
    StepOfThree(w, c1, 0, c2);
    StepOfThree(w, c2, 0, c3);
    StepOfThree(w, c3, 1, c4);
    StepOfThree(w, c4, 0, c5);
    StepOfThree(w, c5, 0, c6);
    StepOfThree(w, c6, 2, w);
  }

  /** Weights 5, 1, 1 starting from current weights equal to the weights: seven
      selections choose the first backend five times and each other backend once,
      interleaved, and the current weights come back to where they started. */
  lemma FiveOneOne(w: seq<int>)
    requires w == [5, 1, 1]
    ensures Run(w, w, 7) == ([0, 0, 0, 1, 0, 0, 2], w)
  {
    var c1, c2, c3, c4, c5, c6 := FiveOneOneSteps(w);
    assert Run(w, w, 0) == ([], w);
    assert Run(w, c6, 1) == ([2] + [], w);
    assert Run(w, c5, 2) == ([0] + Run(w, c6, 1).0, w);
    assert Run(w, c4, 3) == ([0] + Run(w, c5, 2).0, w);
    assert Run(w, c3, 4) == ([1] + Run(w, c4, 3).0, w);
    assert Run(w, c2, 5) == ([0] + Run(w, c3, 4).0, w);
    assert Run(w, c1, 6) == ([0] + Run(w, c2, 5).0, w);
    assert Run(w, w, 7) == ([0] + Run(w, c1, 6).0, w);
    FiveOneOnePicks();
  }

  // ---------------------------------------------------------------- on the backend objects

  predicate Distinct(bs: seq<Backend>) {
    forall i, j :: 0 <= i < j < |bs| ==> bs[i] != bs[j]
  }

  function Weights(bs: seq<Backend>): (w: seq<int>)
    ensures |w| == |bs|
  {
    if |bs| == 0 then [] else Weights(bs[..|bs| - 1]) + [bs[|bs| - 1].weight]
  }

  lemma {:induction false} WeightsAt(bs: seq<Backend>)
    ensures forall i :: 0 <= i < |bs| ==> Weights(bs)[i] == bs[i].weight
  {
    if |bs| > 0 {
      WeightsAt(bs[..|bs| - 1]);
    }
  }

  function CurrentWeights(bs: seq<Backend>): (cw: seq<int>)
    reads bs`currentWeight
    ensures |cw| == |bs|
  {
    if |bs| == 0 then [] else CurrentWeights(bs[..|bs| - 1]) + [bs[|bs| - 1].currentWeight]
  }

  lemma {:induction false} CurrentWeightsAt(bs: seq<Backend>)
    ensures forall i :: 0 <= i < |bs| ==> CurrentWeights(bs)[i] == bs[i].currentWeight
  {
    if |bs| > 0 {
      CurrentWeightsAt(bs[..|bs| - 1]);
    }
  }

  lemma CurrentWeightAt(bs: seq<Backend>, k: int)
    requires 0 <= k < |bs|
    ensures CurrentWeights(bs)[k] == bs[k].currentWeight
  {
    CurrentWeightsAt(bs);
  }

  /** First loop of `getWeightedBackend`: every current weight grows by its weight;
      the result is the total weight. */
  method AddAllWeights(bs: seq<Backend>) returns (totalWeight: int)
    requires Distinct(bs)
    modifies bs`currentWeight
    ensures CurrentWeights(bs) == AddWeights(old(CurrentWeights(bs)), Weights(bs))
    ensures totalWeight == Sum(Weights(bs))
  {
    ghost var w := Weights(bs);
    ghost var cw0 := CurrentWeights(bs);
    CurrentWeightsAt(bs);
    WeightsAt(bs);
    totalWeight := 0;
    var i := 0;
    while i < |bs|
      invariant 0 <= i <= |bs|
      invariant totalWeight == Sum(w[..i])
      invariant forall j :: 0 <= j < i ==> bs[j].currentWeight == cw0[j] + w[j]
      invariant forall j :: i <= j < |bs| ==> bs[j].currentWeight == cw0[j]
    {
      SumSnoc(w, i);
      bs[i].currentWeight := bs[i].currentWeight + bs[i].weight;
      totalWeight := totalWeight + bs[i].weight;
      i := i + 1;
    }
    assert w[..|bs|] == w;
    ghost var cw1 := CurrentWeights(bs);
    CurrentWeightsAt(bs);
    AddedAll(cw0, w, cw1);
  }

  /** Second loop of `getWeightedBackend`: the first backend whose current weight
      is strictly greater than every one before it and than -1. Changes nothing. */
  method SelectMax(bs: seq<Backend>) returns (selected: Backend?, k: int)
    ensures k == Pick(CurrentWeights(bs))
    ensures selected == if k == -1 then null else bs[k]
  {
    ghost var inc := CurrentWeights(bs);
    CurrentWeightsAt(bs);
    selected := null;
    var maxWeight := -1;
    k := -1;
    var i := 0;
    while i < |bs|
      invariant 0 <= i <= |bs|
      invariant k == Pick(inc[..i])
      invariant maxWeight == if k == -1 then -1 else inc[k]
      invariant selected == if k == -1 then null else bs[k]
    {
      PickSnoc(inc, i);
      if bs[i].currentWeight > maxWeight {
        maxWeight := bs[i].currentWeight;
        selected := bs[i];
        k := i;
      }
      i := i + 1;
    }
    assert inc[..|bs|] == inc;
  }

  /** The chosen backend gives back the total weight. */
  method GiveBack(bs: seq<Backend>, k: int, totalWeight: int, ghost cw0: seq<int>)
    requires Distinct(bs) && 0 <= k < |bs|
    requires cw0 == CurrentWeights(bs)
    modifies bs`currentWeight
    ensures CurrentWeights(bs) == cw0[k := cw0[k] - totalWeight]
  {
    CurrentWeightsAt(bs);
    bs[k].currentWeight := bs[k].currentWeight - totalWeight;
    forall i | 0 <= i < |bs| && i != k ensures bs[i].currentWeight == cw0[i] {
      assert bs[i] != bs[k];
    }
    ghost var cw1 := CurrentWeights(bs);
    CurrentWeightsAt(bs);
    assert forall i :: 0 <= i < |bs| ==> cw1[i] == cw0[k := cw0[k] - totalWeight][i];
  }

  /** `getWeightedBackend`: performs `Step` on the backends' current weights and
      returns the backend at the chosen index (and the index), or null (and -1). */
  method GetWeightedBackend(bs: seq<Backend>) returns (selected: Backend?, k: int)
    requires Distinct(bs)
    modifies bs`currentWeight
    ensures k == Step(Weights(bs), old(CurrentWeights(bs))).0
    ensures CurrentWeights(bs) == Step(Weights(bs), old(CurrentWeights(bs))).1
    ensures selected == if k == -1 then null else bs[k]
  {
    ghost var w := Weights(bs);
    ghost var cw0 := CurrentWeights(bs);
    var totalWeight := AddAllWeights(bs);
    ghost var inc := CurrentWeights(bs);
    selected, k := SelectMax(bs);
    if selected != null {
      GiveBack(bs, k, totalWeight, inc);
      ghost var cw1 := CurrentWeights(bs);
      StepTaken(w, cw0, inc, k, totalWeight, cw1);
    } else {
      StepNone(w, cw0, inc, k);
    }
  }
}
