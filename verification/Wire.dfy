/** Bytes on the wire, joining pieces, and the little else that several components share. */
module Wire {

  type Byte = b: int | 0 <= b < 256

  type Bytes = seq<Byte>

  datatype Option<+T> = None | Some(value: T)

  /** The pieces joined in order. */
  function Flatten<T>(pieces: seq<seq<T>>): seq<T> {
    if pieces == [] then [] else pieces[0] + Flatten(pieces[1..])
  }

  lemma {:induction false} FlattenAppend<T>(a: seq<seq<T>>, b: seq<seq<T>>)
    ensures Flatten(a + b) == Flatten(a) + Flatten(b)
  {
    if a == [] {
      assert a + b == b;
    } else {
      assert (a + b)[1..] == a[1..] + b;
      FlattenAppend(a[1..], b);
    }
  }

  lemma FlattenOne<T>(x: seq<T>)
    ensures Flatten([x]) == x
  {
    assert Flatten([x][1..]) == [];
  }

  lemma FlattenSnoc<T>(a: seq<seq<T>>, x: seq<T>)
    ensures Flatten(a + [x]) == Flatten(a) + x
  {
    FlattenAppend(a, [x]);
    FlattenOne(x);
  }

  /** `bytes.startswith`. */
  predicate StartsWith(raw: Bytes, prefix: Bytes) {
    |prefix| <= |raw| && raw[..|prefix|] == prefix
  }

  /** `int()` on a float. */
  function Truncate(x: real): int {
    if x >= 0.0 then x.Floor else -(-x).Floor
  }

  /** Towards zero: the whole number next to `x` that is no further from zero, and the only one. */
  lemma TruncateTowardsZero(x: real, n: int)
    ensures Truncate(x) == n <==> if x >= 0.0 then n as real <= x < n as real + 1.0 else n as real - 1.0 < x <= n as real
  {
    if x < 0.0 {
      var y := -x;
      assert y.Floor as real <= y < y.Floor as real + 1.0;
    }
  }
}
