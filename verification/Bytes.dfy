/** Bytes, and the flattening of chunk sequences shared by every stream model. */
module Bytes {

  newtype byte = b: int | 0 <= b < 256

  type Chunk = seq<byte>

  const ESC: byte := 0x1b
  const BEL: byte := 0x07

  /** The bytes of a sequence of chunks, in order. */
  function Flat<T>(chunks: seq<seq<T>>): seq<T> {
    if chunks == [] then [] else chunks[0] + Flat(chunks[1..])
  }

  lemma Assoc<T>(x: seq<T>, y: seq<T>, z: seq<T>)
    ensures (x + y) + z == x + (y + z)
  {
  }

  lemma {:induction false} FlatConcat<T>(a: seq<seq<T>>, b: seq<seq<T>>)
    ensures Flat(a + b) == Flat(a) + Flat(b)
  {
    if a == [] {
      assert a + b == b;
    } else {
      assert (a + b)[0] == a[0] && (a + b)[1..] == a[1..] + b;
      assert Flat(a + b) == a[0] + Flat(a[1..] + b) && Flat(a) == a[0] + Flat(a[1..]);
      hide Flat;
      FlatConcat(a[1..], b);
      Assoc(a[0], Flat(a[1..]), Flat(b));
    }
  }

  lemma FlatSnoc<T>(a: seq<seq<T>>, c: seq<T>)
    ensures Flat(a + [c]) == Flat(a) + c
  {
    FlatConcat(a, [c]);
    assert [c][1..] == [];
    assert Flat([c]) == c + [];
  }

  ghost predicate IsSuffix<T>(w: seq<T>, s: seq<T>) {
    |w| <= |s| && s[|s| - |w|..] == w
  }
}
