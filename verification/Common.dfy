/** Types shared by every module of the model. */
module Common {

  datatype Option<+T> = None | Some(value: T)

  datatype Result<+T, +E> = Ok(value: T) | Err(error: E) {
    predicate IsFailure() {
      Err?
    }

    function PropagateFailure<U>(): Result<U, E>
      requires Err?
    {
      Err(error)
    }

    function Extract(): T
      requires Ok?
    {
      value
    }
  }

  type byte = b: int | 0 <= b < 256

  /** A condition passed on as a whole: lemmas that hand it along need not look into it. */
  predicate Given(condition: bool) {
    condition
  }

  function Min(a: int, b: int): int {
    if a <= b then a else b
  }

  function Max(a: int, b: int): int {
    if a <= b then b else a
  }

  /** The string holding `n` copies of `c`. */
  function Repeat(c: char, n: nat): (s: string)
    ensures |s| == n
    ensures forall i :: 0 <= i < n ==> s[i] == c
  {
    seq(n, _ => c)
  }

  /** The concatenation of a sequence of sequences, in order. */
  function Flatten<T>(parts: seq<seq<T>>): seq<T> {
    if parts == [] then [] else parts[0] + Flatten(parts[1..])
  }

  lemma {:induction false} FlattenAppend<T>(a: seq<seq<T>>, b: seq<seq<T>>)
    ensures Flatten(a + b) == Flatten(a) + Flatten(b)
  {
    if a == [] {
      assert a + b == b;
    } else {
      assert (a + b)[1..] == a[1..] + b;
      FlattenAppend(a[1..], b);
    }
  }

  lemma FlattenSnoc<T>(a: seq<seq<T>>, x: seq<T>)
    ensures Flatten(a + [x]) == Flatten(a) + x
  {
    FlattenAppend(a, [x]);
    assert Flatten([x]) == x + Flatten([]);
  }

  // ----- Sequences made of some places of another -----

  /** `out` is what `make` gives, in order, for exactly the places below n that are kept: those in `at`. */
  ghost predicate Picks<T(!new)>(n: nat, keep: nat -> bool, make: nat -> T, out: seq<T>, at: seq<nat>) {
    && |at| == |out|
    && (forall k :: 0 <= k < |at| ==> at[k] < n && keep(at[k]) && out[k] == make(at[k]))
    && (forall k, m :: 0 <= k < m < |at| ==> at[k] < at[m])
    && (forall i: nat :: i < n && keep(i) ==> i in at)
  }

  lemma PicksNext<T(!new)>(n: nat, keep: nat -> bool, make: nat -> T, out: seq<T>, at: seq<nat>)
    returns (more: seq<nat>)
    requires Picks(n, keep, make, out, at)
    ensures Picks(n + 1, keep, make, out + (if keep(n) then [make(n)] else []), more)
  {
    more := at + if keep(n) then [n] else [];
    forall i: nat | i < n + 1 && keep(i) ensures i in more {
      if i < n {
        assert i in at;
      }
    }
  }
}
