/** Datatypes and sequence vocabulary shared by the models. */
module Common {

  datatype Option<+T> = None | Some(value: T)

  datatype Result<+T, +E> = Ok(value: T) | Err(error: E)

  ghost predicate NoDup<T(!new)>(s: seq<T>) {
    forall i, j :: 0 <= i < j < |s| ==> s[i] != s[j]
  }

  function Elems<T>(s: seq<T>): (r: set<T>) {
    set x | x in s
  }

  lemma NoDupConcat<T(!new)>(a: seq<T>, b: seq<T>)
    requires NoDup(a) && NoDup(b) && (forall x <- b :: x !in a)
    ensures NoDup(a + b)
  {
    var c := a + b;
    forall i, j | 0 <= i < j < |c|
      ensures c[i] != c[j]
    {
      if i < |a| <= j {
        assert c[j] in b && c[i] in a;
      }
    }
  }

  lemma ElemsConcat<T>(a: seq<T>, b: seq<T>)
    ensures Elems(a + b) == Elems(a) + Elems(b)
  {
  }

  function Max(a: int, b: int): int {
    if a < b then b else a
  }
}
