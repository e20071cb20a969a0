/** A pulse of the earlier revision: the caller gives the mean photon
    number directly, the dark-count threshold is hard-coded, and
    measurement has no basis check and no detector model. */
module LegacyPulse {
  import opened Common
  import opened Circuit
  import Pulse

  /** The dark-count probability written into `measure_state` as `10e-5`. */
  const DarkCountThreshold: real := 0.0001

  /** The photon numbers `get_photon_number_distribution` covers. */
  const MaxPhotons: nat := 10

  /** A result (a bit, or None for no detection) and the next unused draw. */
  datatype Measured = Measured(outcome: Option<Bit>, next: nat)

  /** The constructor's checks: the bit first, then the basis; any mean is
      accepted. */
  function ValidateState(bitValue: int, basis: int): (e: Option<Error>)
    ensures e.None? <==> 0 <= bitValue <= 1 && 0 <= basis <= 1
    ensures !(0 <= bitValue <= 1) ==> e == Some(ValueError("Bit value must be 0 or 1"))
    ensures 0 <= bitValue <= 1 && !(0 <= basis <= 1) ==>
      e == Some(ValueError("Basis must be 0 (rectilinear) or 1 (diagonal)"))
  {
    if !(bitValue == 0 || bitValue == 1) then Some(ValueError("Bit value must be 0 or 1"))
    else if !(basis == 0 || basis == 1) then Some(ValueError("Basis must be 0 (rectilinear) or 1 (diagonal)"))
    else None
  }

  /** The decision tree of the earlier `measure_state`. An empty pulse is a
      dark count (a random bit) when the draw is below the threshold and
      no detection otherwise. A non-empty pulse is measured in the given
      basis, whatever basis it was prepared in, with one simulator shot,
      and the majority bit is returned without consuming draws. */
  function Measurement(v: Pulse.PulseView, measurementBasis: Bit, draws: Stream, pos: nat,
                       shot: Stream): (m: Measured)
    ensures v.photons == 0 ==> (m.outcome.Some? <==> draws(pos) < DarkCountThreshold)
    ensures v.photons == 0 ==> m.next == if m.outcome.Some? then pos + 2 else pos + 1
    ensures v.photons > 0 ==> m.outcome.Some? && m.next == pos
  {
    if v.photons == 0 then
      if draws(pos) < DarkCountThreshold then Measured(Some(CoinOf(draws(pos + 1))), pos + 2)
      else Measured(None, pos + 1)
    else
      var bits := Shot(PrepareGates(v.bit, v.basis, v.photons) + MeasurementGates(measurementBasis, v.photons),
                       v.photons, shot);
      Measured(Some(Majority(bits)), pos)
  }

  /** A non-empty pulse measured in its own basis gives its bit. */
  lemma MeasuredInOwnBasis(v: Pulse.PulseView, draws: Stream, pos: nat, shot: Stream)
    requires v.photons > 0
    ensures Measurement(v, v.basis, draws, pos, shot).outcome == Some(v.bit)
  {
    var bits := Shot(PrepareGates(v.bit, v.basis, v.photons) + MeasurementGates(v.basis, v.photons),
                     v.photons, shot);
    MatchedBasisShot(v.bit, v.basis, v.photons, shot);
    MajorityUniform(bits, v.bit);
  }

  /** A non-empty pulse measured in the other basis gives the majority of
      independent fair coins, unrelated to its bit. */
  lemma MeasuredInOtherBasis(v: Pulse.PulseView, draws: Stream, pos: nat, shot: Stream)
    requires v.photons > 0
    ensures Measurement(v, 1 - v.basis, draws, pos, shot).outcome ==
      Some(Majority(Coins(shot, v.photons)))
  {
    MismatchedBasisShot(v.bit, v.basis, v.photons, shot);
  }

  function Factorial(n: nat): (f: nat)
    ensures f >= 1
  {
    if n == 0 then 1 else n * Factorial(n - 1)
  }

  /** The Poisson probability of `n` photons for the given mean, with the
      exponential `exp` given. */
  /** Powers of a non-negative number are non-negative. */
  lemma {:induction false} PowNonNegative(x: real, n: nat)
    ensures x >= 0.0 ==> Pow(x, n) >= 0.0
  {
    if n > 0 {
      PowNonNegative(x, n - 1);
    }
  }

  function PoissonProbability(mean: real, n: nat, exp: real -> real): (p: real)
    ensures n == 0 ==> p == exp(-mean)
    ensures mean >= 0.0 && exp(-mean) >= 0.0 ==> p >= 0.0
  {
    PowNonNegative(mean, n);
    Pow(mean, n) * exp(-mean) / Factorial(n) as real
  }

  class State {
    const bitValue: Bit
    const basis: Bit
    const meanPhotonNumber: real
    var numQubits: nat
    var circuit: seq<Gate>

    /** The circuit encodes the pulse's bit and basis on every qubit. */
    ghost predicate Valid()
      reads this
    {
      circuit == PrepareGates(bitValue, basis, numQubits)
    }

    function View(): Pulse.PulseView
      reads this
    {
      Pulse.PulseView(bitValue, basis, numQubits)
    }

    /** The fields set by `__init__` once its checks have passed, with the
        photon count already drawn; the circuit is then prepared. */
    constructor (bitValue: Bit, basis: Bit, meanPhotonNumber: real, numQubits: nat)
      ensures this.bitValue == bitValue && this.basis == basis
      ensures this.meanPhotonNumber == meanPhotonNumber && this.numQubits == numQubits
      ensures Valid()
    {
      this.bitValue := bitValue;
      this.basis := basis;
      this.meanPhotonNumber := meanPhotonNumber;
      this.numQubits := numQubits;
      this.circuit := [];
      new;
      PrepareState();
    }

    /** `prepare_state`: nothing for an empty pulse; otherwise an X on every
        qubit iff the bit is 1, then an H on every qubit iff the basis is
        diagonal. */
    method PrepareState()
      modifies this`circuit
      ensures circuit == old(circuit) + PrepareGates(bitValue, basis, numQubits)
    {
      if numQubits == 0 {
        return;
      }
      ghost var xs := if bitValue == 1 then Layer(X, numQubits) else [];
      ghost var hs := if basis == 1 then Layer(H, numQubits) else [];
      if bitValue == 1 {
        AppendLayer(X);
      }
      assert circuit == old(circuit) + xs;
      if basis == 1 {
        AppendLayer(H);
      }
      assert circuit == old(circuit) + xs + hs;
      assert old(circuit) + xs + hs == old(circuit) + (xs + hs);
    }

    /** One gate-appending loop of `prepare_state`. */
    method AppendLayer(k: Kind)
      modifies this`circuit
      ensures circuit == old(circuit) + Layer(k, numQubits)
    {
      var q := 0;
      while q < numQubits
        invariant 0 <= q <= numQubits
        invariant circuit == old(circuit) + Layer(k, q)
      {
        LayerSnoc(k, q);
        circuit := circuit + [Gate(k, q)];
        q := q + 1;
      }
    }

    /** `measure_state`: the draws come from `draws` starting at `pos`,
        and `next` is the first one left unused. */
    method MeasureState(measurementBasis: Bit, draws: Stream, pos: nat, shot: Stream)
      returns (out: Option<Bit>, next: nat)
      requires Valid()
      ensures Measured(out, next) == Measurement(View(), measurementBasis, draws, pos, shot)
    {
      if numQubits == 0 {
        if draws(pos) < DarkCountThreshold {
          return Some(CoinOf(draws(pos + 1))), pos + 2;
        } else {
          return None, pos + 1;
        }
      }
      var bits := Shot(circuit + MeasurementGates(measurementBasis, numQubits), numQubits, shot);
      return Some(Majority(bits)), pos;
    }

    /** `get_photon_number_distribution`: the Poisson probability of each
        photon number from 0 to 9 for this pulse's mean. */
    method PhotonNumberDistribution(exp: real -> real) returns (distribution: map<nat, real>)
      ensures forall n: nat :: n in distribution <==> n < MaxPhotons
      ensures forall n :: n in distribution ==>
        distribution[n] == PoissonProbability(meanPhotonNumber, n, exp)
    {
      distribution := map[];
      var n := 0;
      while n < MaxPhotons
        invariant 0 <= n <= MaxPhotons
        invariant forall k: nat :: k in distribution <==> k < n
        invariant forall k :: k in distribution ==>
          distribution[k] == PoissonProbability(meanPhotonNumber, k, exp)
      {
        distribution := distribution[n := PoissonProbability(meanPhotonNumber, n, exp)];
        n := n + 1;
      }
    }
  }

  /** The views of a sequence of pulses. */
  ghost function Views(states: seq<State>): (vs: seq<Pulse.PulseView>)
    reads states
    ensures |vs| == |states|
  {
    if states == [] then []
    else Views(states[..|states| - 1]) + [states[|states| - 1].View()]
  }

  lemma {:induction false} ViewsAt(states: seq<State>, i: nat)
    requires i < |states|
    ensures Views(states)[i] == states[i].View()
    decreases |states|
  {
    if i < |states| - 1 {
      assert states[..|states| - 1][i] == states[i];
      ViewsAt(states[..|states| - 1], i);
    }
  }

  /** `State(bit_value, basis, mean_photon_number)`: the checks, then the
      Poisson photon count (`sample` is the sampler's draw; a negative mean
      is rejected by the sampler), then the prepared circuit. */
  method NewState(bitValue: int, basis: int, mean: real, sample: nat) returns (r: Result<State>)
    ensures ValidateState(bitValue, basis).Some? ==> r == Err(ValidateState(bitValue, basis).value)
    ensures ValidateState(bitValue, basis).None? ==>
      (r.Ok? <==> mean >= 0.0) &&
      (r.Ok? ==>
         fresh(r.value) && r.value.Valid() &&
         r.value.bitValue == bitValue && r.value.basis == basis &&
         r.value.meanPhotonNumber == mean && Poisson(mean, sample) == Ok(r.value.numQubits))
  {
    var invalid := ValidateState(bitValue, basis);
    if invalid.Some? {
      return Err(invalid.value);
    }
    var photons := Poisson(mean, sample);
    if photons.Err? {
      return Err(photons.error);
    }
    var s := new State(bitValue, basis, mean, photons.value);
    r := Ok(s);
  }
}
