/** Outcomes shared by every part of the model. */
module Common {

  /** A value that may be missing, usable with `:-`. */
  datatype Option<+T> = None | Some(value: T) {
    predicate IsFailure() {
      None?
    }

    function PropagateFailure<U>(): Option<U>
      requires None?
    {
      None
    }

    function Extract(): T
      requires Some?
    {
      value
    }
  }

  type Byte = b: int | 0 <= b < 256

  /** The result of an operation that may be refused, carrying the reason for the refusal. */
  datatype Result<+T, +E> = Success(value: T) | Failure(error: E)

  /** Sets and maps of numbers with the same members are the same. */
  lemma SameNumbers(a: set<int>, b: set<int>)
    requires forall k :: k in a <==> k in b
    ensures a == b
  {
    forall k | k in a
      ensures k in b
    {}
    forall k | k in b
      ensures k in a
    {}
  }

  lemma SameByNumber<V>(a: map<int, V>, b: map<int, V>)
    requires forall k :: k in a <==> k in b
    requires forall k :: k in a ==> a[k] == b[k]
    ensures a == b
  {
    forall k | k in a
      ensures k in b
    {}
    forall k | k in b
      ensures k in a
    {}
    forall k | k in a
      ensures k in b && a[k] == b[k]
    {}
  }

  lemma SomeNumber(a: set<int>)
    ensures a == {} || exists k :: k in a
  {
    if !exists k :: k in a {
      assert a == {};
    }
  }
}
