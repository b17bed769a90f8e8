/** Result shapes shared by the other modules. */
module Common {
  datatype Option<+T> = None | Some(value: T)

  datatype Status = Ok | Error

  /** A value stored under a primary key. */
  datatype Keyed<+T> = Keyed(hash: nat, value: T)

  lemma Associative<T>(a: seq<T>, b: seq<T>, c: seq<T>)
    ensures a + b + c == a + (b + c)
  {
  }
}
