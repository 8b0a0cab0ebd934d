// Optional values and results shared by every module of the model.
module Wrappers {
  /** A value that may be absent: Python's None, Go's nil. */
  datatype Option<T> = None | Some(value: T)

  /** The outcome of an operation that can fail with an error of type E. */
  datatype Result<T, E> = Ok(value: T) | Err(error: E)

  /**
   * A loop over results that stops at the first error: every value when all
   * succeed, otherwise the first error met, left to right.
   */
  function AllOk<T, E>(rs: seq<Result<T, E>>): (r: Result<seq<T>, E>)
    ensures r.Ok? ==> |r.value| == |rs|
    decreases |rs|
  {
    if rs == [] then Ok([])
    else
      match AllOk(rs[..|rs| - 1])
      case Err(e) => Err(e)
      case Ok(vs) =>
        match rs[|rs| - 1]
        case Err(e) => Err(e)
        case Ok(v) => Ok(vs + [v])
  }

  /** AllOk succeeds exactly when every result does, and then holds their values in order. */
  lemma {:induction false} AllOkValues<T, E>(rs: seq<Result<T, E>>)
    ensures AllOk(rs).Ok? <==> forall i :: 0 <= i < |rs| ==> rs[i].Ok?
    ensures AllOk(rs).Ok? ==> forall i :: 0 <= i < |rs| ==> AllOk(rs).value[i] == rs[i].value
    decreases |rs|
  {
    if rs != [] {
      var init := rs[..|rs| - 1];
      AllOkValues(init);
      assert forall i :: 0 <= i < |init| ==> init[i] == rs[i];
    }
  }

  /** One more successful result extends the collected values. */
  lemma {:induction false} AllOkSnoc<T, E>(rs: seq<Result<T, E>>, vs: seq<T>, v: T)
    requires AllOk(rs) == Ok(vs)
    ensures AllOk(rs + [Ok(v)]) == Ok(vs + [v])
  {
    assert (rs + [Ok(v)])[..|rs|] == rs;
  }

  /** When AllOk fails, its error is that of the first failing result. */
  lemma {:induction false} AllOkFirstError<T, E>(rs: seq<Result<T, E>>) returns (i: nat)
    requires AllOk(rs).Err?
    ensures i < |rs| && rs[i] == Err(AllOk(rs).error)
    ensures forall j :: 0 <= j < i ==> rs[j].Ok?
    decreases |rs|
  {
    var init := rs[..|rs| - 1];
    if AllOk(init).Err? {
      i := AllOkFirstError(init);
      assert forall j :: 0 <= j < |init| ==> init[j] == rs[j];
    } else {
      AllOkValues(init);
      i := |rs| - 1;
    }
  }

  /** An error in a prefix is the error of the whole: the loop stops there. */
  lemma {:induction false} AllOkPrefixErr<T, E>(rs: seq<Result<T, E>>, k: nat)
    requires k <= |rs| && AllOk(rs[..k]).Err?
    ensures AllOk(rs) == AllOk(rs[..k])
    decreases |rs|
  {
    if k < |rs| {
      var init := rs[..|rs| - 1];
      assert init[..k] == rs[..k];
      AllOkPrefixErr(init, k);
    } else {
      assert rs[..k] == rs;
    }
  }

  /** f applied to every element, in order: a loop that appends f(x) for each x. */
  function MapSeq<A, B>(xs: seq<A>, f: A -> B): (r: seq<B>)
    ensures |r| == |xs|
    decreases |xs|
  {
    if xs == [] then [] else MapSeq(xs[..|xs| - 1], f) + [f(xs[|xs| - 1])]
  }

  lemma {:induction false} MapSeqAt<A, B>(xs: seq<A>, f: A -> B)
    ensures forall i :: 0 <= i < |xs| ==> MapSeq(xs, f)[i] == f(xs[i])
    decreases |xs|
  {
    if xs != [] {
      var init := xs[..|xs| - 1];
      MapSeqAt(init, f);
      assert forall i :: 0 <= i < |init| ==> init[i] == xs[i];
    }
  }

  /** Mapping a prefix gives the prefix of the mapping. */
  lemma {:induction false} MapSeqPrefix<A, B>(xs: seq<A>, k: nat, f: A -> B)
    requires k <= |xs|
    ensures MapSeq(xs[..k], f) == MapSeq(xs, f)[..k]
    decreases |xs|
  {
    if k < |xs| {
      var init := xs[..|xs| - 1];
      assert init[..k] == xs[..k];
      MapSeqPrefix(init, k, f);
    } else {
      assert xs[..k] == xs;
    }
  }

  /** The values f yields, in order, skipping the elements it maps to None: a loop that appends only some results. */
  function FilterMap<A, B>(xs: seq<A>, f: A -> Option<B>): (r: seq<B>)
    ensures |r| <= |xs|
    decreases |xs|
  {
    if xs == [] then []
    else
      var init := FilterMap(xs[..|xs| - 1], f);
      match f(xs[|xs| - 1])
      case None => init
      case Some(y) => init + [y]
  }

  /** One more element adds its value, if it has one, at the end. */
  lemma {:induction false} FilterMapSnoc<A, B>(xs: seq<A>, x: A, f: A -> Option<B>)
    ensures FilterMap(xs + [x], f) == FilterMap(xs, f) + (if f(x).Some? then [f(x).value] else [])
  {
    assert (xs + [x])[..|xs|] == xs;
  }

  /** Filtering distributes over concatenation, so the output keeps the input's order. */
  lemma {:induction false} FilterMapConcat<A, B>(xs: seq<A>, ys: seq<A>, f: A -> Option<B>)
    ensures FilterMap(xs + ys, f) == FilterMap(xs, f) + FilterMap(ys, f)
    decreases |ys|
  {
    if ys == [] {
      assert xs + ys == xs;
    } else {
      var init, y := ys[..|ys| - 1], ys[|ys| - 1];
      assert ys == init + [y];
      assert xs + ys == (xs + init) + [y];
      FilterMapConcat(xs, init, f);
      FilterMapSnoc(xs + init, y, f);
      FilterMapSnoc(init, y, f);
    }
  }

  /** A value is in the output exactly when some element maps to it. */
  lemma {:induction false} FilterMapMember<A, B>(xs: seq<A>, f: A -> Option<B>, y: B)
    ensures y in FilterMap(xs, f) <==> exists i :: 0 <= i < |xs| && f(xs[i]) == Some(y)
    decreases |xs|
  {
    if xs != [] {
      var init := xs[..|xs| - 1];
      FilterMapMember(init, f, y);
      assert forall i :: 0 <= i < |init| ==> init[i] == xs[i];
      if f(xs[|xs| - 1]) == Some(y) {
        assert y in FilterMap(xs, f);
      }
    }
  }

  /** Sequences laid end to end. */
  function Flatten<T>(cs: seq<seq<T>>): seq<T>
    decreases |cs|
  {
    if cs == [] then [] else cs[0] + Flatten(cs[1..])
  }

  /** Laying out two lists of sequences is laying out each in turn. */
  lemma {:induction false} FlattenConcat<T>(a: seq<seq<T>>, b: seq<seq<T>>)
    ensures Flatten(a + b) == Flatten(a) + Flatten(b)
    decreases |a|
  {
    if a != [] {
      assert (a + b)[0] == a[0];
      assert (a + b)[1..] == a[1..] + b;
      FlattenConcat(a[1..], b);
    } else {
      assert a + b == b;
    }
  }

  /** The first of two optional values that is present (`a if a is not None else b`). */
  function FirstSome<T>(a: Option<T>, b: Option<T>): (r: Option<T>)
    ensures r.Some? <==> a.Some? || b.Some?
    ensures a.Some? ==> r == a
    ensures a.None? ==> r == b
  {
    if a.Some? then a else b
  }
}
