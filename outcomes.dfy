/** Optional arguments and the exceptions raised by the business-plan engine. */
module Outcomes {

  /** An optional argument: Python's `None` or a value. */
  datatype Option<+T> = None | Some(value: T)

  /** One constructor per kind of failure of business_plans/bp.py; the
      comment gives the Python exception class. */
  datatype Error =
    | NonIncreasingIndex                      // ValueError: accessor over a non strictly increasing index
    | EndNotAfterStart                        // ValueError: BP(start, end) with end <= start
    | HistoryTooLong(given: nat, size: nat)   // ValueError: more history values than index keys
    | IndexOutOfRange(position: nat)          // IndexError: index[len(history)] past the last key
    | KeyNotFound(key: int)                   // KeyError: a key absent from the index
    | StartAfterEnd(start: int, end: int)     // ValueError: simulation start key after end key
    | LengthMismatch(expected: nat, got: nat) // ValueError: simulator result of the wrong length
    | ReferenceWithoutValue                   // ValueError: actualise with a reference but no value
    | NoAnchor                                // ValueError: actualise with no value at position 0
    | InvalidStart                            // ValueError: actualise with a falsy value at position 0
    | ZeroDivision                            // ZeroDivisionError: 0.0 raised to a negative power

  /** Either a value or the exception that interrupted the computation. */
  datatype Result<+T> = Ok(value: T) | Err(error: Error) {
    predicate IsFailure() {
      Err?
    }

    function PropagateFailure<U>(): Result<U>
      requires Err?
    {
      Err(error)
    }

    function Extract(): T
      requires Ok?
    {
      value
    }
  }
}
