/** Outcome types and the few collection facts that every part of the model shares. */
module Prelude {

  const TWO_TO_THE_30: int := 0x4000_0000
  const TWO_TO_THE_31: int := 0x8000_0000
  const TWO_TO_THE_32: int := 0x1_0000_0000
  const TWO_TO_THE_64: int := 0x1_0000_0000_0000_0000

  type uint64 = x: int | 0 <= x < TWO_TO_THE_64

  datatype Option<+T> = None | Some(value: T)

  /** The error codes of the framework that the modelled code can return. */
  datatype ErrorCode =
    | InvalidArgument
    | InvalidState
    | Disconnected
    | OperationFailed
    | ParseError
    | AlreadyExists
    | NotFound
    | VersionMismatch
    | CreateFailed
    | HookFailed(code: nat)

  datatype Result<+T> = Ok(value: T) | Err(error: ErrorCode)

  /** A result that carries no value. */
  datatype Status = Success | Failure(error: ErrorCode)

  ghost predicate Distinct<T>(s: seq<T>) {
    forall i, j :: 0 <= i < j < |s| ==> s[i] != s[j]
  }

  lemma AppendDistinct<T>(s: seq<T>, x: T)
    requires Distinct(s) && x !in s
    ensures Distinct(s + [x])
  {
    assert forall i :: 0 <= i < |s| ==> s[i] in s;
  }

  lemma Reassociate<T>(a: seq<T>, b: seq<T>, c: seq<T>)
    ensures a + b + c == a + (b + c)
  {
  }

  lemma HeadAndTail<T>(s: seq<T>)
    requires s != []
    ensures [s[0]] + s[1..] == s
  {
  }
}
