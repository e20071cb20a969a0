/** Values shared by both revisions of the simulator: bits, random streams,
    the exceptions the Python code raises, and the per-pulse measurement
    outcome that the receiver records. */
module Common {

  /** A classical bit or a basis choice (0 = rectilinear, 1 = diagonal). */
  type Bit = b: int | 0 <= b <= 1

  /** An infinite stream of uniform draws in [0, 1): the sequence a seeded
      generator produces. Draw k is `s(k)`. */
  type Stream = nat -> real

  /** A stream of Poisson samples, one per pulse index. */
  type PoissonStream = nat -> nat

  /** A two-way random choice (`random.choice([0, 1])`, `np.random.randint(0, 2)`)
      consumes one draw and splits it at one half. */
  function CoinOf(r: real): (b: Bit)
    ensures b == 1 <==> r >= 0.5
  {
    if r < 0.5 then 0 else 1
  }

  /** The exceptions the modelled code raises. */
  datatype Error =
    | ValueError(message: string)
    | AttributeError
    | NotImplementedError
    | IndexError
    | TypeError

  datatype Option<+T> = None | Some(value: T)

  datatype Result<+T> = Ok(value: T) | Err(error: Error)

  /** What the receiver records for one pulse: a bit, the string
      'No detection', or the string 'Wrong basis'. */
  datatype Outcome = Bit(bit: Bit) | NoDetection | WrongBasis

  /** Python's `numpy.random.poisson(lam)` for a sample drawn from the
      stream: a mean of 0 always gives 0 photons and a negative mean is
      rejected. */
  function Poisson(mean: real, sample: nat): (r: Result<nat>)
    ensures r.Err? <==> mean < 0.0
    ensures mean == 0.0 ==> r == Ok(0)
    ensures mean > 0.0 ==> r == Ok(sample)
  {
    if mean < 0.0 then Err(ValueError("lam < 0"))
    else if mean == 0.0 then Ok(0)
    else Ok(sample)
  }

  /** `xs.count(x)`: how many entries equal `x`. It counts the bits of a
      measured register and the pulses of one intensity class. */
  function Count<T(==)>(xs: seq<T>, x: T): (c: nat)
    ensures c <= |xs|
  {
    if xs == [] then 0
    else Count(xs[..|xs| - 1], x) + (if xs[|xs| - 1] == x then 1 else 0)
  }

  /** `x ** n` for a whole exponent. */
  function Pow(x: real, n: nat): real
  {
    if n == 0 then 1.0 else x * Pow(x, n - 1)
  }
}
