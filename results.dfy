/**
 * Values standing for JavaScript's `undefined`/`null` and for calls that
 * either return or throw an `Error`.
 */
module Results {

  /** A value that may be absent (`undefined` or `null` in the source). */
  datatype Option<+T> = None | Some(value: T) {
    /** `x || fallback` for a value whose only falsy form is absence. */
    function GetOr(fallback: T): T {
      if Some? then value else fallback
    }
  }

  /** A call that returns a value or throws `new Error(message)`. */
  datatype Result<+T> = Ok(value: T) | Err(message: string)

  /** A call made for its effects: it runs to completion or throws `new Error(message)`. */
  datatype Outcome = Pass | Fail(message: string)

  /** Regrouping a concatenation, stated once so that proofs about logs can cite it. */
  lemma AppendAssoc<T>(a: seq<T>, b: seq<T>, c: seq<T>)
    ensures (a + b) + c == a + (b + c)
  {
  }
}
