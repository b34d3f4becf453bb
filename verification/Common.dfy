/** Result and Option types and a few facts about sums of reals, shared by every component. */
module Common {

  datatype Option<+T> = None | Some(value: T)

  /** The source's `(value, error)` returns. */
  datatype Result<+T, +E> = Ok(value: T) | Err(error: E) {
    predicate IsFailure() {
      Err?
    }

    function PropagateFailure<U>(): Result<U, E>
      requires Err?
    {
      Err(error)
    }

    function Extract(): T
      requires Ok?
    {
      value
    }
  }

  function Abs(x: real): real {
    if x < 0.0 then -x else x
  }

  function Max(x: real, y: real): real {
    if x < y then y else x
  }

  function Min(x: real, y: real): real {
    if y < x then y else x
  }

  function Sum(s: seq<real>): real {
    if s == [] then 0.0 else Sum(s[..|s| - 1]) + s[|s| - 1]
  }

  lemma SumAppend(s: seq<real>, x: real)
    ensures Sum(s + [x]) == Sum(s) + x
  {
    assert (s + [x])[..|s|] == s;
  }

  lemma {:induction false} SumConcat(s: seq<real>, t: seq<real>)
    ensures Sum(s + t) == Sum(s) + Sum(t)
  {
    if t == [] {
      assert s + t == s;
    } else {
      var n := |t| - 1;
      assert s + t == (s + t[..n]) + [t[n]];
      SumAppend(s + t[..n], t[n]);
      SumConcat(s, t[..n]);
    }
  }

  /** A window that slides one step drops its first element and gains one at the end. */
  lemma SumSlide(s: seq<real>, from: nat, to: nat)
    requires from < to < |s|
    ensures Sum(s[from + 1..to + 1]) == Sum(s[from..to]) - s[from] + s[to]
  {
    assert s[from..to] == [s[from]] + s[from + 1..to];
    SumConcat([s[from]], s[from + 1..to]);
    SumAppend([], s[from]);
    assert s[from + 1..to + 1] == s[from + 1..to] + [s[to]];
    SumAppend(s[from + 1..to], s[to]);
    assert [] + [s[from]] == [s[from]];
  }

  lemma {:induction false} SumNonNegative(s: seq<real>)
    requires forall i :: 0 <= i < |s| ==> s[i] >= 0.0
    ensures Sum(s) >= 0.0
  {
    if s != [] {
      SumNonNegative(s[..|s| - 1]);
    }
  }
}
