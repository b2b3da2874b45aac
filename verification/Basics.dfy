/** Byte strings, results, and the sums that the accounting proofs range over. */
module Basics {
  // Go strings and json.RawMessage values are byte strings.
  type Byte = b: int | 0 <= b < 256
  type Bytes = seq<Byte>

  datatype Option<+T> = None | Some(value: T)

  datatype Result<+T, +E> = Ok(value: T) | Err(error: E)

  // utils.XML_PREFIX and utils.JSON_PREFIX, spelled in ASCII.
  const XML_PREFIX: Bytes := [0x78, 0x6D, 0x6C]
  const JSON_PREFIX: Bytes := [0x6A, 0x73, 0x6F, 0x6E]

  function One(yes: bool): int {
    if yes then 1 else 0
  }

  function Total<T>(xs: seq<T>, f: T -> int): int {
    if xs == [] then 0 else f(xs[0]) + Total(xs[1..], f)
  }

  lemma {:induction false} TotalConcat<T>(xs: seq<T>, ys: seq<T>, f: T -> int)
    ensures Total(xs + ys, f) == Total(xs, f) + Total(ys, f)
  {
    if xs == [] {
      assert xs + ys == ys;
    } else {
      assert (xs + ys)[1..] == xs[1..] + ys;
      TotalConcat(xs[1..], ys, f);
    }
  }

  lemma TotalUpdate<T>(xs: seq<T>, i: nat, x: T, f: T -> int)
    requires i < |xs|
    ensures Total(xs[i := x], f) == Total(xs, f) - f(xs[i]) + f(x)
  {
    assert xs == xs[..i] + ([xs[i]] + xs[i + 1..]);
    assert xs[i := x] == xs[..i] + ([x] + xs[i + 1..]);
    TotalConcat(xs[..i], [xs[i]] + xs[i + 1..], f);
    TotalConcat(xs[..i], [x] + xs[i + 1..], f);
  }

  lemma TotalAppend<T>(xs: seq<T>, x: T, f: T -> int)
    ensures Total(xs + [x], f) == Total(xs, f) + f(x)
  {
    TotalConcat(xs, [x], f);
  }

  // A linear law that holds of every element holds of the totals.
  lemma {:induction false} TotalLaw<T>(xs: seq<T>, sum: T -> int, a: T -> int, b: T -> int, c: T -> int, d: T -> int)
    requires forall x :: x in xs ==> sum(x) == a(x) + b(x) + c(x) + d(x)
    ensures Total(xs, sum) == Total(xs, a) + Total(xs, b) + Total(xs, c) + Total(xs, d)
  {
    if xs != [] {
      assert xs[0] in xs;
      TotalLaw(xs[1..], sum, a, b, c, d);
    }
  }

  lemma {:induction false} TotalSame<T>(xs: seq<T>, f: T -> int, g: T -> int)
    requires forall x :: x in xs ==> f(x) == g(x)
    ensures Total(xs, f) == Total(xs, g)
  {
    if xs != [] {
      assert xs[0] in xs;
      TotalSame(xs[1..], f, g);
    }
  }

  lemma {:induction false} TotalOnes<T>(xs: seq<T>, f: T -> int)
    requires forall x :: x in xs ==> f(x) == 1
    ensures Total(xs, f) == |xs|
  {
    if xs != [] {
      assert xs[0] in xs;
      TotalOnes(xs[1..], f);
    }
  }

  lemma {:induction false} TotalZero<T>(xs: seq<T>, f: T -> int)
    requires forall x :: x in xs ==> f(x) == 0
    ensures Total(xs, f) == 0
  {
    if xs != [] {
      assert xs[0] in xs;
      TotalZero(xs[1..], f);
    }
  }
}
