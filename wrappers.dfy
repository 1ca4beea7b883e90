/** The failure-compatible Option type used for the source's nullable values. */
module Wrappers {

  datatype Option<+T> = None | Some(value: T) {

    predicate IsFailure() {
      None?
    }

    function PropagateFailure<U>(): Option<U>
      requires None?
    {
      None
    }

    function Extract(): T
      requires Some?
    {
      value
    }

    /** The value held, or `default` when there is none (Python's `x or default` on non-empty values). */
    function GetOr(default: T): T {
      match this
      case Some(v) => v
      case None => default
    }
  }

  /** The values present in `xs`, in order: what a loop appending only the present ones builds. */
  function Somes<T>(xs: seq<Option<T>>): (r: seq<T>)
    ensures |r| <= |xs|
  {
    if xs == [] then []
    else Somes(xs[..|xs| - 1]) + (if xs[|xs| - 1].Some? then [xs[|xs| - 1].value] else [])
  }

  /** One more element extends the collected values by its value, if any. */
  lemma SomesStep<T>(xs: seq<Option<T>>, i: nat)
    requires i < |xs|
    ensures Somes(xs[..i + 1]) == Somes(xs[..i]) + (if xs[i].Some? then [xs[i].value] else [])
  {
    assert xs[..i + 1][..i] == xs[..i];
  }

  /** Every collected value is present at some position. */
  lemma {:induction false} SomesSound<T>(xs: seq<Option<T>>, k: nat)
    requires k < |Somes(xs)|
    ensures exists j :: 0 <= j < |xs| && xs[j] == Some(Somes(xs)[k])
  {
    var init := xs[..|xs| - 1];
    if k < |Somes(init)| {
      SomesSound(init, k);
      var j :| 0 <= j < |init| && init[j] == Some(Somes(init)[k]);
      assert xs[j] == init[j];
    } else {
      assert xs[|xs| - 1] == Some(Somes(xs)[k]);
    }
  }

  /** Every present value is collected. */
  lemma {:induction false} SomesComplete<T>(xs: seq<Option<T>>, j: nat)
    requires j < |xs| && xs[j].Some?
    ensures xs[j].value in Somes(xs)
  {
    var init := xs[..|xs| - 1];
    if j < |init| {
      assert init[j] == xs[j];
      SomesComplete(init, j);
    }
  }

  /** The values collected from a prefix begin those collected from the whole. */
  lemma {:induction false} SomesGrows<T>(xs: seq<Option<T>>, i: nat)
    requires i <= |xs|
    ensures Somes(xs[..i]) <= Somes(xs)
    decreases |xs| - i
  {
    if i < |xs| {
      SomesGrows(xs, i + 1);
      SomesStep(xs, i);
    } else {
      assert xs[..i] == xs;
    }
  }

  /** Values present at two positions are collected in the order of those positions. */
  lemma SomesOrder<T>(xs: seq<Option<T>>, a: nat, b: nat)
    requires a < b < |xs| && xs[a].Some? && xs[b].Some?
    ensures exists p, q :: 0 <= p < q < |Somes(xs)| && Somes(xs)[p] == xs[a].value && Somes(xs)[q] == xs[b].value
  {
    var pre := xs[..b];
    assert pre[a] == xs[a];
    SomesComplete(pre, a);
    var P := Somes(pre);
    var p :| 0 <= p < |P| && P[p] == xs[a].value;
    SomesStep(xs, b);
    SomesGrows(xs, b + 1);
    var Q := Somes(xs[..b + 1]);
    assert Q == P + [xs[b].value];
    assert Somes(xs)[p] == Q[p];
    assert Somes(xs)[|P|] == Q[|P|];
  }
}
