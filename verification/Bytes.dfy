/** Byte strings, and the concatenation of the pieces they travel in. */
module Bytes {

  type byte = b: int | 0 <= b < 0x100

  type Bytes = seq<byte>

  datatype Option<+T> = None | Some(value: T)

  /** The contributions of all the elements of `xs`, in order. */
  function Cat<T>(f: T -> Bytes, xs: seq<T>): Bytes
  {
    if xs == [] then [] else f(xs[0]) + Cat(f, xs[1..])
  }

  lemma {:induction false} CatAppend<T>(f: T -> Bytes, xs: seq<T>, ys: seq<T>)
    ensures Cat(f, xs + ys) == Cat(f, xs) + Cat(f, ys)
  {
    if xs == [] {
      assert xs + ys == ys;
    } else {
      assert (xs + ys)[1..] == xs[1..] + ys;
      CatAppend(f, xs[1..], ys);
    }
  }

  lemma CatOne<T>(f: T -> Bytes, x: T)
    ensures Cat(f, [x]) == f(x)
  {
    assert [x][1..] == [];
  }

  lemma CatSnoc<T>(f: T -> Bytes, xs: seq<T>, x: T)
    ensures Cat(f, xs + [x]) == Cat(f, xs) + f(x)
  {
    CatAppend(f, xs, [x]);
    CatOne(f, x);
  }

  function Same(b: Bytes): Bytes { b }

  /** The concatenation of a list of byte strings. */
  function Flat(parts: seq<Bytes>): Bytes
  {
    Cat(Same, parts)
  }
}
