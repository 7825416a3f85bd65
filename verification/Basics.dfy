/** Failure-compatible wrappers and a fact about sets, shared by every model in this project. */
module Basics {

  datatype Option<+T> = None | Some(value: T) {
    predicate IsFailure() { None? }
    function PropagateFailure<U>(): Option<U>
      requires None?
    { None }
    function Extract(): T
      requires Some?
    { value }
  }

  datatype Result<+T> = Ok(value: T) | Err(reason: string) {
    predicate IsFailure() { Err? }
    function PropagateFailure<U>(): Result<U>
      requires Err?
    { Err(reason) }
    function Extract(): T
      requires Ok?
    { value }
  }

  lemma SingletonMember<C>(s: set<C>)
    requires |s| <= 1
    ensures forall x, y :: x in s && y in s ==> x == y
  {
    forall x, y | x in s && y in s ensures x == y {
      assert |s - {x}| == 0;
      assert y in s - {x} || y == x;
    }
  }
}
