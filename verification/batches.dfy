/** The shape both `SyncHandler.handle` loops share: walk the uploads in
    order, let each produce at most one entry, stop at the first exception. */
module Batches {
  import opened Wrappers
  import opened Errors

  /** The entries `step` produces over `items`, in item order; the first
      exception aborts the whole batch. */
  function Collect<F, X>(step: F -> Result<Option<X>, Fault>, items: seq<F>): (r: Result<seq<X>, Fault>)
    ensures r.Ok? ==> |r.value| <= |items|
    ensures r.Ok? <==> forall i :: 0 <= i < |items| ==> step(items[i]).Ok?
  {
    if |items| == 0 then Ok([])
    else
      var init := items[..|items| - 1];
      match Collect(step, init)
      case Err(e) =>
        assert exists i :: 0 <= i < |init| && step(init[i]).Err?;
        Err(e)
      case Ok(out) =>
        match step(items[|items| - 1])
        case Err(e) => Err(e)
        case Ok(o) =>
          assert forall i :: 0 <= i < |init| ==> init[i] == items[i];
          Ok(out + (if o.Some? then [o.value] else []))
  }

  predicate Produces<F, X>(step: F -> Result<Option<X>, Fault>, item: F) {
    step(item).Ok? && step(item).value.Some?
  }

  /** The positions of the items that produce an entry, in order. */
  function Producers<F, X>(step: F -> Result<Option<X>, Fault>, items: seq<F>): (p: seq<nat>)
    ensures forall k :: 0 <= k < |p| ==> p[k] < |items|
  {
    if |items| == 0 then []
    else
      Producers(step, items[..|items| - 1]) +
      (if Produces(step, items[|items| - 1]) then [|items| - 1] else [])
  }

  /** The entries of a batch that ran to the end are the products of the
      producing items, in item order, one per producing item; every other
      item produced nothing. */
  lemma {:induction false} CollectInOrder<F, X>(step: F -> Result<Option<X>, Fault>, items: seq<F>)
    requires Collect(step, items).Ok?
    ensures var out := Collect(step, items).value;
            var p := Producers(step, items);
            && |p| == |out|
            && (forall k :: 0 <= k < |p| ==> step(items[p[k]]) == Ok(Some(out[k])))
            && (forall k, l :: 0 <= k < l < |p| ==> p[k] < p[l])
            && (forall i :: 0 <= i < |items| ==> (i in p <==> Produces(step, items[i])))
  {
    CollectProducts(step, items);
    ProducersIncrease(step, items);
    ProducersExactly(step, items);
  }

  lemma {:induction false} CollectProducts<F, X>(step: F -> Result<Option<X>, Fault>, items: seq<F>)
    requires Collect(step, items).Ok?
    ensures var out := Collect(step, items).value;
            var p := Producers(step, items);
            && |p| == |out|
            && (forall k :: 0 <= k < |p| ==> step(items[p[k]]) == Ok(Some(out[k])))
  {
    if |items| > 0 {
      var n := |items| - 1;
      var init := items[..n];
      assert forall i :: 0 <= i < n ==> init[i] == items[i];
      CollectProducts(step, init);
    }
  }

  /** Strictly increasing positions. */
  predicate Increasing(p: seq<nat>) {
    forall k, l :: 0 <= k < l < |p| ==> p[k] < p[l]
  }

  lemma {:induction false} ProducersIncrease<F, X>(step: F -> Result<Option<X>, Fault>, items: seq<F>)
    ensures Increasing(Producers(step, items))
  {
    if |items| > 0 {
      var init := items[..|items| - 1];
      var p0 := Producers(step, init);
      ProducersIncrease(step, init);
      var n := |items| - 1;
      var p := Producers(step, items);
      assert p == p0 + (if Produces(step, items[n]) then [n] else []);
      forall k, l | 0 <= k < l < |p| ensures p[k] < p[l] {
        assert k < |p0|;
        assert p[k] == p0[k] && p0[k] < |init| == n;
        if l < |p0| {
          assert p[l] == p0[l];
          assert p0[k] < p0[l];
        } else {
          assert p[l] == n;
        }
      }
    }
  }

  lemma {:induction false} ProducersExactly<F, X>(step: F -> Result<Option<X>, Fault>, items: seq<F>)
    ensures var p := Producers(step, items);
            forall i :: 0 <= i < |items| ==> (i in p <==> Produces(step, items[i]))
  {
    if |items| > 0 {
      var n := |items| - 1;
      var init := items[..n];
      assert forall i :: 0 <= i < n ==> init[i] == items[i];
      ProducersExactly(step, init);
    }
  }

  /** A batch in which some item raises produces no entries at all. */
  lemma CollectFailsOnFault<F, X>(step: F -> Result<Option<X>, Fault>, items: seq<F>, i: nat)
    requires i < |items| && step(items[i]).Err?
    ensures Collect(step, items).Err?
  {
  }

  /** When every item produces an entry there is one entry per item. */
  lemma {:induction false} CollectAllProduce<F, X>(step: F -> Result<Option<X>, Fault>, items: seq<F>)
    requires forall i :: 0 <= i < |items| ==> Produces(step, items[i])
    ensures Collect(step, items).Ok? && |Collect(step, items).value| == |items|
    ensures forall i :: 0 <= i < |items| ==> step(items[i]) == Ok(Some(Collect(step, items).value[i]))
  {
    if |items| > 0 {
      var init := items[..|items| - 1];
      assert forall i :: 0 <= i < |init| ==> init[i] == items[i];
      CollectAllProduce(step, init);
    }
  }

  /** Items after an exception do not change the outcome. */
  lemma {:induction false} CollectKeepsFirstFault<F, X>(step: F -> Result<Option<X>, Fault>, items: seq<F>, j: nat)
    requires j <= |items| && Collect(step, items[..j]).Err?
    ensures Collect(step, items) == Collect(step, items[..j])
  {
    if j < |items| {
      var init := items[..|items| - 1];
      assert init[..j] == items[..j];
      CollectKeepsFirstFault(step, init, j);
    } else {
      assert items[..j] == items;
    }
  }

  /** The `for file in files` loop itself: equal to `Collect`. */
  method CollectLoop<F, X>(step: F -> Result<Option<X>, Fault>, items: seq<F>)
    returns (r: Result<seq<X>, Fault>)
    ensures r == Collect(step, items)
  {
    var out: seq<X> := [];
    var i := 0;
    while i < |items|
      invariant 0 <= i <= |items|
      invariant Collect(step, items[..i]) == Ok(out)
    {
      ghost var next := items[..i + 1];
      assert next[..|next| - 1] == items[..i] && next[|next| - 1] == items[i];
      var o := step(items[i]);
      if o.Err? {
        CollectKeepsFirstFault(step, items, i + 1);
        return Err(o.error);
      }
      var entry := if o.value.Some? then [o.value.value] else [];
      assert Collect(step, next) == Ok(out + entry);
      out := out + entry;
      i := i + 1;
    }
    assert items[..i] == items;
    return Ok(out);
  }
}
