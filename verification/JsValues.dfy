/** The JavaScript numbers and dates the authority code compares, with their non-finite values. */
module JsValues {
  import IsoDates

  const MAX_SAFE: int := 9007199254740991

  /** Finite doubles are taken as reals: no code here computes with them. */
  datatype Number = Fin(r: real) | PosInf | NegInf | NaN
  {
    predicate Greater(that: Number)
    {
      if NaN? || that.NaN? then false
      else if PosInf? then !that.PosInf?
      else if that.NegInf? then !NegInf?
      else Fin? && that.Fin? && r > that.r
    }

    predicate AtLeast(that: Number)
    {
      !NaN? && !that.NaN? && !that.Greater(this)
    }

    predicate IsSafeInteger()
    {
      Fin? && r == r.Floor as real && -MAX_SAFE as real <= r <= MAX_SAFE as real
    }
  }

  function Int(n: int): Number
  {
    Fin(n as real)
  }

  /** A `Date`, by `getTime`. */
  datatype Date = At(ms: int) | Invalid

  /** `new Date(ms)`: dates end 100 million days from 1970, either way. */
  function DateOf(ms: int): Date
  {
    if IsoDates.InDateRange(ms) then At(ms) else Invalid
  }

  /** `a < b` on dates: false as soon as one is invalid. */
  predicate Before(a: Date, b: Date)
  {
    a.At? && b.At? && a.ms < b.ms
  }

  /** `Math.floor(ms / 1000)`; Dafny's quotient by a positive number rounds down as well. */
  function Seconds(ms: int): int
  {
    ms / 1000
  }
}
