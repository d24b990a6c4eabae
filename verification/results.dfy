/** Error results of the decoder. Every exception the C# readers can raise while
    decoding becomes an `Err` carrying the kind of failure; an error aborts the
    whole parse, exactly as an uncaught exception does. */
module Results {

  datatype Error =
    | EndOfStream        // a read ran past the end of the stream
    | IndexOutOfRange    // an array index outside its bounds
    | DivideByZero       // an integer division by a zero divisor
    | StructuralCorruption // a failed Debug.Assert on a record-size invariant
    | ArgumentOutOfRange // a list index outside the list, or a negative count or size
    | DecompressionFailed // the block codec rejected its input
    | UnsupportedFormat  // the texture-header builder's "What did you just give me?"
    | NotImplemented     // the write direction

  datatype Result<+T> = Ok(value: T) | Err(error: Error) {
    predicate IsFailure() { Err? }

    function PropagateFailure<U>(): Result<U>
      requires Err?
    {
      Err(error)
    }

    function Extract(): T
      requires Ok?
    {
      value
    }
  }

  datatype Option<+T> = None | Some(value: T)

  /** A reader's result agrees with a specification that gives its value, or
      `None` where the reader throws. */
  predicate Yields<T(==)>(r: Result<T>, spec: Option<T>) {
    (r.Ok? <==> spec.Some?) && (r.Ok? ==> r.value == spec.value)
  }

  /** A value paired with a counter, or `None`. */
  function Lift<T>(e: Option<T>, n: nat): (r: Option<(T, nat)>)
    ensures r.Some? <==> e.Some?
    ensures r.Some? ==> r.value == (e.value, n)
  {
    if e.None? then None else Some((e.value, n))
  }
}
