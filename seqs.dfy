/** Facts about sequence concatenation that the solver does not find on its own in a large context. */
module Seqs {

  /** Concatenation is associative. */
  lemma Regroup<T>(a: seq<T>, b: seq<T>, c: seq<T>)
    ensures a + b + c == a + (b + c)
  {
  }

  /** Dropping the first element of `[x] + t` leaves `t`. */
  lemma DropFirst<T>(x: seq<T>, t: seq<T>)
    requires |x| == 1
    ensures (x + t)[1..] == t
  {
  }
}
