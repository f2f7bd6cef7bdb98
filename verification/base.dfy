/** Shared value types of the RAG service model: optional values, results
    carrying an error message, pass/fail outcomes, opaque 32-bit floats and
    generated identifiers. */
module Base {

  /** A value that may be absent (a Go nil reference or an unset field). */
  datatype Option<+T> = None | Some(value: T) {
    function GetOr(default: T): T {
      if Some? then value else default
    }
  }

  /** A value or the message of the error that replaced it (Go's `(T, error)`). */
  datatype Result<+T> = Ok(value: T) | Err(msg: string) {
    predicate IsFailure() {
      Err?
    }

    function PropagateFailure<U>(): Result<U>
      requires Err?
    {
      Err(msg)
    }

    function Extract(): T
      requires Ok?
    {
      value
    }

    /** Prefixes the error message, as `fmt.Errorf("context: %w", err)` does. */
    function Wrap(context: string): (r: Result<T>)
      ensures Ok? ==> r == this
      ensures Err? ==> r == Err(context + msg)
    {
      if Ok? then this else Err(context + msg)
    }
  }

  /** The outcome of a call that returns only an error. */
  datatype Outcome = Pass | Fail(msg: string) {
    function Wrap(context: string): (r: Outcome)
      ensures Pass? ==> r == Pass
      ensures Fail? ==> r == Fail(context + msg)
    {
      if Pass? then Pass else Fail(context + msg)
    }
  }

  /** An IEEE-754 single-precision number, kept as its bit pattern: the model
      never computes with embedding values or scores, it only moves them. */
  type Float32 = bv32

  /** A dense embedding vector. */
  type Vector = seq<Float32>

  const Two64: int := 0x1_0000_0000_0000_0000

  /** Go's `uint64(x)` conversion: the value modulo 2^64, so a negative
      count becomes a huge one. */
  function ToUint64(x: int): (r: nat)
    ensures r < Two64
    ensures 0 <= x < Two64 ==> r == x
    ensures -Two64 <= x < 0 ==> r == x + Two64
  {
    x % Two64
  }

  /** The canonical 36-character text form of a random UUID. */
  type Uuid = s: string | |s| == 36 witness "00000000-0000-0000-0000-000000000000"
}
