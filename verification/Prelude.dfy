// Shared value types: the source's machine integers, its byte strings, and the
// usual Option and Result.
module Prelude {

  datatype Option<+T> = None | Some(value: T)

  // Result of an operation that may fail; the source's error texts are not modelled,
  // only which failure it is where callers tell failures apart.
  datatype Result<+T, +E> = Ok(value: T) | Err(error: E)

  const MAX_UINT64: int := 0xFFFF_FFFF_FFFF_FFFF
  const MAX_INT64: int := 0x7FFF_FFFF_FFFF_FFFF
  const MAX_UINT32: int := 0xFFFF_FFFF

  // A value of this type cannot wrap: every sum and difference assigned to it carries
  // a proof obligation.
  type u64 = x: int | 0 <= x <= MAX_UINT64

  type byte = x: int | 0 <= x < 256

  // An identifier: a string that the source only compares, for equality or, to break ties
  // and to sort, in byte order. Each stands for its rank in that order.
  type Id = int

  // An order in which a set is walked: Go map ranges and bucket cursors visit each
  // element once; which order is chosen never matters to what is proved here.
  ghost predicate Enumerates<T(!new)>(order: seq<T>, s: set<T>) {
    && (forall x :: x in order <==> x in s)
    && (forall i, j :: 0 <= i < j < |order| ==> order[i] != order[j])
  }

  // The next element of a walk.
  method Pick<T>(s: set<T>) returns (x: T)
    requires s != {}
    ensures x in s
  {
    x :| x in s;
  }
}
