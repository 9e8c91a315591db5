/**
 * The generator appends grid rows in steps, and a step can throw a
 * TypeError, which abandons every later step. `ForEach` is
 * `xs.forEach(x => step(x))` under that rule; its lemmas are proved once for
 * any step, whatever the elements it appends.
 */
module Steps {
  import opened Dom

  /** The elements a step appends, and whether it then threw. */
  datatype Emitted = Emitted(nodes: seq<Node>, threw: bool)

  /** Run a, then b unless a threw. */
  function Then(a: Emitted, b: Emitted): Emitted {
    if a.threw then a else Emitted(a.nodes + b.nodes, b.threw)
  }

  /** The steps of xs in order, up to and including the first that throws. */
  function ForEach<T>(xs: seq<T>, step: T -> Emitted): Emitted
    decreases |xs|
  {
    if xs == [] then Emitted([], false)
    else Then(ForEach(xs[..|xs| - 1], step), step(xs[|xs| - 1]))
  }

  /** Taking one more element runs one more step, unless an earlier one threw. */
  lemma ForEachSnoc<T>(xs: seq<T>, step: T -> Emitted, k: nat)
    requires k < |xs|
    ensures ForEach(xs[..k + 1], step) == Then(ForEach(xs[..k], step), step(xs[k]))
  {
    assert xs[..k + 1][..k] == xs[..k];
  }

  /** Once the steps of a prefix threw, the later elements change nothing. */
  lemma {:induction false} ForEachStopAtThrow<T>(xs: seq<T>, step: T -> Emitted, k: nat)
    requires k <= |xs| && ForEach(xs[..k], step).threw
    ensures ForEach(xs, step) == ForEach(xs[..k], step)
    decreases |xs| - k
  {
    if k < |xs| {
      ForEachSnoc(xs, step, k);
      ForEachStopAtThrow(xs, step, k + 1);
    } else {
      assert xs[..k] == xs;
    }
  }

  /** The loop throws exactly when the step of some element throws. */
  lemma {:induction false} ForEachThrew<T>(xs: seq<T>, step: T -> Emitted)
    ensures ForEach(xs, step).threw <==> exists j :: 0 <= j < |xs| && step(xs[j]).threw
    decreases |xs|
  {
    if xs != [] {
      var m := |xs| - 1;
      ForEachThrew(xs[..m], step);
      assert forall j :: 0 <= j < m ==> xs[..m][j] == xs[j];
    }
  }

  /** How many elements the steps of xs append when none throws. */
  function Emits<T>(xs: seq<T>, step: T -> Emitted): nat
    decreases |xs|
  {
    if xs == [] then 0 else Emits(xs[..|xs| - 1], step) + |step(xs[|xs| - 1]).nodes|
  }

  /** Without a throw, the loop appends all the elements of all the steps. */
  lemma {:induction false} ForEachSize<T>(xs: seq<T>, step: T -> Emitted)
    requires !ForEach(xs, step).threw
    ensures |ForEach(xs, step).nodes| == Emits(xs, step)
    decreases |xs|
  {
    if xs != [] {
      ForEachSize(xs[..|xs| - 1], step);
    }
  }

  /**
   * Without a throw, the elements of step j sit unchanged and contiguous
   * after those of the steps before it: the loop keeps the order of xs.
   */
  lemma {:induction false} ForEachAt<T>(xs: seq<T>, step: T -> Emitted, j: nat)
    requires !ForEach(xs, step).threw && j < |xs|
    ensures Emits(xs[..j], step) + |step(xs[j]).nodes| <= |ForEach(xs, step).nodes|
    ensures ForEach(xs, step).nodes[Emits(xs[..j], step)..Emits(xs[..j], step) + |step(xs[j]).nodes|]
         == step(xs[j]).nodes
    decreases |xs|
  {
    var m := |xs| - 1;
    var init := xs[..m];
    var before := ForEach(init, step).nodes;
    var mine := step(xs[j]).nodes;
    var all := ForEach(xs, step).nodes;
    assert all == before + step(xs[m]).nodes;
    if j < m {
      ForEachAt(init, step, j);
      assert xs[..j] == init[..j];
      assert xs[j] == init[j];
      var off := Emits(init[..j], step);
      assert all[off..off + |mine|] == before[off..off + |mine|];
    } else {
      ForEachSize(init, step);
      assert xs[..j] == init;
      assert all[|before|..|before| + |mine|] == mine;
    }
  }

  /** When every step appends c elements, the steps of xs append c for each element. */
  lemma {:induction false} EmitsUniform<T>(xs: seq<T>, step: T -> Emitted, c: nat)
    requires forall j :: 0 <= j < |xs| ==> |step(xs[j]).nodes| == c
    ensures Emits(xs, step) == c * |xs|
    decreases |xs|
  {
    if xs != [] {
      var m := |xs| - 1;
      assert forall j :: 0 <= j < m ==> xs[..m][j] == xs[j];
      EmitsUniform(xs[..m], step, c);
    }
  }

  /**
   * When every step appends c elements and none throws, the elements of
   * step j are those at c·j up to c·(j + 1).
   */
  lemma ForEachUniformAt<T>(xs: seq<T>, step: T -> Emitted, c: nat, j: nat)
    requires !ForEach(xs, step).threw && j < |xs|
    requires forall i :: 0 <= i < |xs| ==> |step(xs[i]).nodes| == c
    ensures |ForEach(xs, step).nodes| == c * |xs|
    ensures c * j + c <= |ForEach(xs, step).nodes|
    ensures ForEach(xs, step).nodes[c * j..c * j + c] == step(xs[j]).nodes
  {
    ForEachSize(xs, step);
    EmitsUniform(xs, step, c);
    ForEachAt(xs, step, j);
    assert forall i :: 0 <= i < j ==> xs[..j][i] == xs[i];
    EmitsUniform(xs[..j], step, c);
    assert c * j + c <= c * |xs| by {
      assert c * |xs| == c * j + c * (|xs| - j);
    }
  }
}
