/** Shared vocabulary: bytes, the failure datatypes and sequence flattening. */
module Basics {

  type byte = x: int | 0 <= x < 0x100
  type u16 = x: int | 0 <= x < 0x1_0000

  datatype Option<+T> = None | Some(value: T)

  datatype Result<+T, +E> = Ok(value: T) | Err(error: E)

  /** `u16::to_be_bytes`. */
  function ToBe(w: u16): (bytes: seq<byte>)
    ensures |bytes| == 2 && w == bytes[0] as int * 256 + bytes[1]
  {
    [w / 0x100, w % 0x100]
  }

  /** `u16::from_be_bytes`. */
  function FromBe(hi: byte, lo: byte): (w: u16)
    ensures w == hi as int * 256 + lo && ToBe(w) == [hi, lo]
  {
    (hi as int) * 0x100 + lo as int
  }

  lemma {:induction false} Assoc<T>(xs: seq<T>, ys: seq<T>, zs: seq<T>)
    ensures (xs + ys) + zs == xs + (ys + zs)
  {
  }

  function Flatten<T>(parts: seq<seq<T>>): seq<T> {
    if parts == [] then [] else parts[0] + Flatten(parts[1..])
  }

  lemma {:induction false} FlattenAppend<T>(xs: seq<seq<T>>, ys: seq<seq<T>>)
    ensures Flatten(xs + ys) == Flatten(xs) + Flatten(ys)
  {
    if xs == [] {
      assert xs + ys == ys;
    } else {
      FlattenAppend(xs[1..], ys);
      assert (xs + ys)[1..] == xs[1..] + ys;
      Assoc(xs[0], Flatten(xs[1..]), Flatten(ys));
    }
  }

  lemma {:induction false} FlattenOne<T>(x: seq<T>)
    ensures Flatten([x]) == x
  {
  }
}
