/** The small pieces the other modules share. */
module Wrappers {

  /** An optional field or an error that may be absent: the source's nil pointer. */
  datatype Option<+T> = None | Some(value: T)

  /** No two positions of s hold the same value. */
  ghost predicate Distinct<T>(s: seq<T>)
  {
    forall i, j | 0 <= i < j < |s| :: s[i] != s[j]
  }

  /** Whether an item ends the list before it or begins the one behind it makes no difference. */
  lemma {:induction false} Reassociate<T>(a: seq<T>, x: T, b: seq<T>)
    ensures a + ([x] + b) == a + [x] + b
  {
  }

  lemma Associates<T>(a: seq<T>, b: seq<T>, c: seq<T>)
    ensures a + b + c == a + (b + c)
  {
  }
}
