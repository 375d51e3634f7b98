/** Bytes, byte strings, and byte strings that arrive in pieces. */
module ByteStreams {

  newtype Byte = b: int | 0 <= b < 256

  type Bytes = seq<Byte>

  /** The stream that a sequence of pieces carries. */
  function Flatten(pieces: seq<Bytes>): Bytes {
    if pieces == [] then [] else pieces[0] + Flatten(pieces[1..])
  }

  lemma {:induction false} FlattenAppend(xs: seq<Bytes>, ys: seq<Bytes>)
    ensures Flatten(xs + ys) == Flatten(xs) + Flatten(ys)
  {
    if xs == [] {
      assert xs + ys == ys;
    } else {
      FlattenAppend(xs[1..], ys);
      var all := xs + ys;
      assert all[0] == xs[0] && all[1..] == xs[1..] + ys;
      assert Flatten(all) == xs[0] + Flatten(all[1..]);
    }
  }

  lemma FlattenOne(piece: Bytes)
    ensures Flatten([piece]) == piece
  {
    assert [piece][1..] == [];
  }

  lemma FlattenPush(xs: seq<Bytes>, piece: Bytes)
    ensures Flatten(xs + [piece]) == Flatten(xs) + piece
  {
    FlattenAppend(xs, [piece]);
    FlattenOne(piece);
  }

  function Min(a: int, b: int): int {
    if a <= b then a else b
  }

  function Max(a: int, b: int): int {
    if a >= b then a else b
  }
}
