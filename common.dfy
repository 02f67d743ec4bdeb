/** Failure-carrying wrappers shared by every module of the model.
    A Python function that raises is modelled as returning `Err(message)`;
    one that may return `None` as returning `Option`. */
module Common {

  datatype Option<+T> = None | Some(value: T)

  /** The result of a Python call: a value, or the text of the exception it raised. */
  datatype Result<+T> = Ok(value: T) | Err(error: string)

  /** The result of a Python call made only for its effect. */
  datatype Outcome = Pass | Fail(error: string)

  /** The elements of `xs` that satisfy `p`, in order; a Python list
      comprehension with an `if`, or a loop that appends selected items. */
  function Filter<T>(xs: seq<T>, p: T -> bool): (r: seq<T>)
    ensures |r| <= |xs|
    ensures forall i :: 0 <= i < |r| ==> p(r[i])
  {
    if xs == [] then []
    else Filter(xs[..|xs| - 1], p) + (if p(xs[|xs| - 1]) then [xs[|xs| - 1]] else [])
  }

  /** Filtering one more element at the end extends the result by that element or nothing. */
  lemma FilterSnoc<T>(xs: seq<T>, x: T, p: T -> bool)
    ensures Filter(xs + [x], p) == Filter(xs, p) + (if p(x) then [x] else [])
  {
    assert (xs + [x])[..|xs|] == xs;
  }

  /** Filtering distributes over concatenation: an element that is dropped never hides the others. */
  lemma {:induction false} FilterConcat<T>(xs: seq<T>, ys: seq<T>, p: T -> bool)
    ensures Filter(xs + ys, p) == Filter(xs, p) + Filter(ys, p)
    decreases |ys|
  {
    if ys == [] {
      assert xs + ys == xs;
    } else {
      var ys' := ys[..|ys| - 1];
      var y := ys[|ys| - 1];
      assert xs + ys == (xs + ys') + [y];
      assert ys == ys' + [y];
      FilterSnoc(xs + ys', y, p);
      FilterSnoc(ys', y, p);
      FilterConcat(xs, ys', p);
    }
  }

  /** An element is kept exactly when it occurs in `xs` and satisfies `p`. */
  lemma {:induction false} FilterMembers<T>(xs: seq<T>, p: T -> bool, x: T)
    ensures x in Filter(xs, p) <==> x in xs && p(x)
    decreases |xs|
  {
    if xs != [] {
      var init := xs[..|xs| - 1];
      FilterMembers(init, p, x);
      assert xs == init + [xs[|xs| - 1]];
    }
  }

  /** `2 ** n`. */
  function Pow2(n: nat): nat
  {
    if n == 0 then 1 else 2 * Pow2(n - 1)
  }

  function Min(a: int, b: int): (m: int)
    ensures m <= a && m <= b && (m == a || m == b)
  {
    if a <= b then a else b
  }
}
