// Vocabulary shared by every module of the model.
module Base {

  type Id = string

  datatype Option<+T> = None | Some(value: T)

  // A raised exception is `Err`; the transaction around it was rolled back.
  datatype Result<+T, +E> = Ok(value: T) | Err(error: E)

  lemma DropFront<T>(a: seq<T>, b: seq<T>, k: nat)
    requires k <= |a|
    ensures (a + b)[k..] == a[k..] + b
    ensures k == |a| ==> (a + b)[k..] == b
  {
  }

  lemma Assoc<T>(a: seq<T>, b: seq<T>, c: seq<T>)
    ensures (a + b) + c == a + (b + c)
  {
  }
}
