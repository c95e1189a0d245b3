/** The byte type shared by the wire formats, and the flattening of lists of byte strings. */
module Bytes {
  newtype byte = x: int | 0 <= x < 256

  datatype Option<T> = None | Some(value: T)

  /** The elements of the strings of l, in order. */
  function Flat<T>(l: seq<seq<T>>): seq<T> {
    if l == [] then [] else l[0] + Flat(l[1..])
  }

  lemma {:induction false} FlatConcat<T>(l: seq<seq<T>>, m: seq<seq<T>>)
    ensures Flat(l + m) == Flat(l) + Flat(m)
  {
    if l == [] {
      assert l + m == m;
    } else {
      assert (l + m)[1..] == l[1..] + m;
      FlatConcat(l[1..], m);
    }
  }

  lemma FlatOne<T>(x: seq<T>)
    ensures Flat([x]) == x
  {
    assert [x][1..] == [];
  }

  lemma FlatCons<T>(x: seq<T>, l: seq<seq<T>>)
    ensures Flat([x] + l) == x + Flat(l)
  {
    assert ([x] + l)[1..] == l;
  }

  lemma FlatAppend<T>(l: seq<seq<T>>, x: seq<T>)
    ensures Flat(l + [x]) == Flat(l) + x
  {
    FlatConcat(l, [x]);
    FlatOne(x);
  }
}
