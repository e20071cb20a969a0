/** A pulse of the current revision (`State`): its bit, basis and class
    mean, the Poisson photon count, the circuit that encodes it, and the
    detector's decision tree that turns a pulse and a measurement basis
    into the receiver's outcome. */
module Pulse {
  import opened Common
  import opened Circuit
  import opened Configuration

  /** The detector parameters `measure_state` reads: the dark count rate
      and error rate from the configuration, and the per-photon detection
      efficiency. */
  datatype Detector = Detector(darkCountRate: real, efficiency: real, errorRate: real)

  /** What the decision tree needs of a pulse. */
  datatype PulseView = PulseView(bit: Bit, basis: Bit, photons: nat)

  /** An outcome and the position of the next unused draw. */
  datatype Measured = Measured(outcome: Outcome, next: nat)

  /** The counters of the per-photon loop and the next unused draw. */
  datatype Tally = Tally(detected: nat, errors: nat, next: nat)

  /** `(bit + 1) % 2`. */
  function Flip(b: Bit): (f: Bit)
    ensures f != b
  {
    (b + 1) % 2
  }

  /** The constructor's checks, in the order the source makes them. */
  function ValidateState(bitValue: int, basis: int, stateType: string): (e: Option<Error>)
    ensures e.None? <==> 0 <= bitValue <= 1 && 0 <= basis <= 1 && IsStateType(stateType)
    ensures e.Some? ==> e.value.ValueError?
    ensures !(0 <= bitValue <= 1) ==> e == Some(ValueError("Bit value must be 0 or 1"))
    ensures 0 <= bitValue <= 1 && !(0 <= basis <= 1) ==>
      e == Some(ValueError("Basis must be 0 (rectilinear) or 1 (diagonal)"))
  {
    if !(bitValue == 0 || bitValue == 1) then Some(ValueError("Bit value must be 0 or 1"))
    else if !(basis == 0 || basis == 1) then Some(ValueError("Basis must be 0 (rectilinear) or 1 (diagonal)"))
    else if !IsStateType(stateType) then Some(ValueError("State type must be 'signal', 'decoy', or 'vacuum'"))
    else None
  }

  class State {
    const bitValue: Bit
    const basis: Bit
    const meanPhotonNumber: real
    var numQubits: nat
    var circuit: seq<Gate>

    /** The circuit encodes the pulse's bit and basis on every qubit. */
    ghost predicate Valid()
      reads this
    {
      circuit == PrepareGates(bitValue, basis, numQubits)
    }

    function View(): PulseView
      reads this
    {
      PulseView(bitValue, basis, numQubits)
    }

    /** The fields set by `__init__` once its checks have passed, with the
        photon count already drawn; the circuit is then prepared. */
    constructor (bitValue: Bit, basis: Bit, meanPhotonNumber: real, numQubits: nat)
      ensures this.bitValue == bitValue && this.basis == basis
      ensures this.meanPhotonNumber == meanPhotonNumber && this.numQubits == numQubits
      ensures Valid()
    {
      this.bitValue := bitValue;
      this.basis := basis;
      this.meanPhotonNumber := meanPhotonNumber;
      this.numQubits := numQubits;
      this.circuit := [];
      new;
      PrepareState();
    }

    /** `prepare_state`: nothing for an empty pulse; otherwise an X on every
        qubit iff the bit is 1, then an H on every qubit iff the basis is
        diagonal, appended to the circuit. */
    method PrepareState()
      modifies this`circuit
      ensures circuit == old(circuit) + PrepareGates(bitValue, basis, numQubits)
    {
      if numQubits == 0 {
        return;
      }
      ghost var xs := if bitValue == 1 then Layer(X, numQubits) else [];
      ghost var hs := if basis == 1 then Layer(H, numQubits) else [];
      if bitValue == 1 {
        AppendLayer(X);
      }
      assert circuit == old(circuit) + xs;
      if basis == 1 {
        AppendLayer(H);
      }
      assert circuit == old(circuit) + xs + hs;
      assert old(circuit) + xs + hs == old(circuit) + (xs + hs);
    }

    /** One `for qubit in range(self.num_qubits)` loop of `prepare_state`:
        a gate of kind `k` on each qubit, in order. */
    method AppendLayer(k: Kind)
      modifies this`circuit
      ensures circuit == old(circuit) + Layer(k, numQubits)
    {
      var q := 0;
      while q < numQubits
        invariant 0 <= q <= numQubits
        invariant circuit == old(circuit) + Layer(k, q)
      {
        LayerSnoc(k, q);
        circuit := circuit + [Gate(k, q)];
        q := q + 1;
      }
    }

    /** `measure_state`: the detector decision tree. The draws from the
        generator are taken from `draws` starting at `pos`; `next` is the
        first one left unused. When a photon is detected correctly the
        circuit is measured in the receiver's basis with one simulator
        shot, and the majority of the measured bits is taken; that basis is
        the pulse's own here, so the majority is the pulse's bit. */
    method MeasureState(measurementBasis: Bit, detector: Detector, draws: Stream, pos: nat,
                        shot: Stream) returns (out: Outcome, next: nat)
      requires Valid()
      ensures Measured(out, next) == Measurement(View(), measurementBasis, detector, draws, pos)
    {
      if measurementBasis != basis {
        return WrongBasis, pos;
      }
      if numQubits == 0 {
        if draws(pos) < detector.darkCountRate {
          return Bit(CoinOf(draws(pos + 1))), pos + 2;
        } else {
          return NoDetection, pos + 1;
        }
      }
      var detectedPhotons, errorDetectedPhotons, cursor := DetectPhotons(numQubits, detector, draws, pos);
      if errorDetectedPhotons > 0 {
        return Bit(Flip(bitValue)), cursor;
      } else if detectedPhotons == 0 {
        if draws(cursor) < detector.darkCountRate {
          return Bit(CoinOf(draws(cursor + 1))), cursor + 2;
        } else {
          return NoDetection, cursor + 1;
        }
      } else {
        var bits := Shot(circuit + MeasurementGates(measurementBasis, numQubits), numQubits, shot);
        MatchedBasisShot(bitValue, basis, numQubits, shot);
        MajorityUniform(bits, bitValue);
        var majorityBitValue := Majority(bits);
        if draws(cursor) < detector.darkCountRate * 0.5 {
          return Bit(Flip(majorityBitValue)), cursor + 1;
        } else {
          return Bit(majorityBitValue), cursor + 1;
        }
      }
    }
  }

  /** The views of a sequence of pulses. */
  ghost function Views(states: seq<State>): (vs: seq<PulseView>)
    reads states
    ensures |vs| == |states|
  {
    if states == [] then []
    else Views(states[..|states| - 1]) + [states[|states| - 1].View()]
  }

  lemma {:induction false} ViewsAt(states: seq<State>, i: nat)
    requires i < |states|
    ensures Views(states)[i] == states[i].View()
    decreases |states|
  {
    if i < |states| - 1 {
      assert states[..|states| - 1][i] == states[i];
      ViewsAt(states[..|states| - 1], i);
    }
  }

  /** `State(bit_value, basis, state_type)`: the checks, the class mean from
      the configuration, the Poisson photon count (`sample` is the
      sampler's draw), then the prepared circuit. */
  method NewState(bitValue: int, basis: int, stateType: string, config: Config?, sample: nat)
    returns (r: Result<State>)
    ensures ValidateState(bitValue, basis, stateType).Some? ==>
      r == Err(ValidateState(bitValue, basis, stateType).value)
    ensures ValidateState(bitValue, basis, stateType).None? &&
            StateTypeToMeanPhotonNumber(config, stateType).Err? ==>
      r == Err(StateTypeToMeanPhotonNumber(config, stateType).error)
    ensures ValidateState(bitValue, basis, stateType).None? &&
            StateTypeToMeanPhotonNumber(config, stateType).Ok? ==>
      var mean := StateTypeToMeanPhotonNumber(config, stateType).value;
      (r.Ok? <==> mean >= 0.0) &&
      (r.Ok? ==>
         fresh(r.value) && r.value.Valid() &&
         r.value.bitValue == bitValue && r.value.basis == basis &&
         r.value.meanPhotonNumber == mean &&
         Poisson(mean, sample) == Ok(r.value.numQubits))
  {
    var invalid := ValidateState(bitValue, basis, stateType);
    if invalid.Some? {
      return Err(invalid.value);
    }
    var mean := StateTypeToMeanPhotonNumber(config, stateType);
    if mean.Err? {
      return Err(mean.error);
    }
    var photons := Poisson(mean.value, sample);
    if photons.Err? {
      return Err(photons.error);
    }
    var s := new State(bitValue, basis, mean.value, photons.value);
    r := Ok(s);
  }

  /** The per-photon loop of `measure_state`: each of the `n` photons is
      detected with probability `efficiency`, and a detected photon counts
      as an error with probability `errorRate`. */
  method DetectPhotons(n: nat, detector: Detector, draws: Stream, pos: nat)
    returns (detectedPhotons: nat, errorDetectedPhotons: nat, cursor: nat)
    ensures Tally(detectedPhotons, errorDetectedPhotons, cursor) == CountPhotons(n, detector, draws, pos)
  {
    detectedPhotons, errorDetectedPhotons, cursor := 0, 0, pos;
    var k := 0;
    while k < n
      invariant 0 <= k <= n
      invariant CountPhotons(k, detector, draws, pos) == Tally(detectedPhotons, errorDetectedPhotons, cursor)
    {
      if draws(cursor) < detector.efficiency {
        if draws(cursor + 1) < detector.errorRate {
          errorDetectedPhotons := errorDetectedPhotons + 1;
        } else {
          detectedPhotons := detectedPhotons + 1;
        }
        cursor := cursor + 2;
      } else {
        cursor := cursor + 1;
      }
      k := k + 1;
    }
  }

  /** The dark-count branch: with probability `darkCountRate` a fair random
      bit, otherwise no detection. */
  function DarkCount(detector: Detector, draws: Stream, pos: nat): (m: Measured)
    ensures m.outcome.Bit? <==> draws(pos) < detector.darkCountRate
    ensures m.outcome.Bit? || m.outcome == NoDetection
    ensures m.next == if m.outcome.Bit? then pos + 2 else pos + 1
  {
    if draws(pos) < detector.darkCountRate then Measured(Bit(CoinOf(draws(pos + 1))), pos + 2)
    else Measured(NoDetection, pos + 1)
  }

  /** The per-photon loop over the first `k` photons: a photon is detected
      with probability `efficiency`, and a detected photon is an error with
      probability `errorRate`. */
  function CountPhotons(k: nat, detector: Detector, draws: Stream, pos: nat): (t: Tally)
    ensures t.detected + t.errors <= k
    ensures pos + k <= t.next <= pos + 2 * k
  {
    if k == 0 then Tally(0, 0, pos)
    else PhotonStep(CountPhotons(k - 1, detector, draws, pos), detector, draws)
  }

  /** One photon of the loop: undetected, detected correctly, or detected
      as an error. */
  function PhotonStep(t: Tally, detector: Detector, draws: Stream): (u: Tally)
    ensures u.detected + u.errors <= t.detected + t.errors + 1
    ensures t.next + 1 <= u.next <= t.next + 2
  {
    if draws(t.next) < detector.efficiency then
      if draws(t.next + 1) < detector.errorRate then Tally(t.detected, t.errors + 1, t.next + 2)
      else Tally(t.detected + 1, t.errors, t.next + 2)
    else Tally(t.detected, t.errors, t.next + 1)
  }

  /** The decision tree of `measure_state`. */
  function Measurement(v: PulseView, measurementBasis: Bit, detector: Detector, draws: Stream,
                       pos: nat): (m: Measured)
    ensures m.outcome == WrongBasis <==> measurementBasis != v.basis
    ensures measurementBasis != v.basis ==> m.next == pos
    ensures pos <= m.next <= pos + 2 * v.photons + 2
    ensures measurementBasis == v.basis && v.photons == 0 ==>
      m == DarkCount(detector, draws, pos)
    ensures measurementBasis == v.basis && v.photons > 0 &&
            CountPhotons(v.photons, detector, draws, pos).errors > 0 ==>
      m.outcome == Bit(1 - v.bit)
  {
    if measurementBasis != v.basis then Measured(WrongBasis, pos)
    else if v.photons == 0 then DarkCount(detector, draws, pos)
    else
      var t := CountPhotons(v.photons, detector, draws, pos);
      if t.errors > 0 then Measured(Bit(Flip(v.bit)), t.next)
      else if t.detected == 0 then DarkCount(detector, draws, t.next)
      else if draws(t.next) < detector.darkCountRate * 0.5 then Measured(Bit(Flip(v.bit)), t.next + 1)
      else Measured(Bit(v.bit), t.next + 1)
  }

  /** A pulse whose photons all reached the detector without error gives
      the sender's bit, unless the final dark-count draw flips it. */
  lemma CorrectDetectionKeepsBit(v: PulseView, detector: Detector, draws: Stream, pos: nat)
    requires v.photons > 0
    requires CountPhotons(v.photons, detector, draws, pos).errors == 0
    requires CountPhotons(v.photons, detector, draws, pos).detected > 0
    ensures var t := CountPhotons(v.photons, detector, draws, pos);
      Measurement(v, v.basis, detector, draws, pos).outcome ==
        if draws(t.next) < detector.darkCountRate * 0.5 then Bit(1 - v.bit) else Bit(v.bit)
  {
  }

  /** When no photon is counted, the pulse falls back to an independent
      dark-count roll at the next unused draw. */
  lemma UndetectedFallsBackToDark(v: PulseView, detector: Detector, draws: Stream, pos: nat)
    requires v.photons > 0
    requires CountPhotons(v.photons, detector, draws, pos).errors == 0
    requires CountPhotons(v.photons, detector, draws, pos).detected == 0
    ensures Measurement(v, v.basis, detector, draws, pos)
         == DarkCount(detector, draws, CountPhotons(v.photons, detector, draws, pos).next)
  {
  }

  /** With draws in [0, 1), a detector without errors never counts an
      erroneous photon. */
  lemma {:induction false} NoErrorsWithoutErrorRate(k: nat, detector: Detector, draws: Stream, pos: nat)
    requires detector.errorRate <= 0.0
    requires forall j :: 0.0 <= draws(j)
    ensures CountPhotons(k, detector, draws, pos).errors == 0
  {
    if k > 0 {
      NoErrorsWithoutErrorRate(k - 1, detector, draws, pos);
    }
  }

  /** With draws in [0, 1) and an efficiency above every draw, each photon is
      detected. */
  lemma {:induction false} AllDetectedAtFullEfficiency(k: nat, detector: Detector, draws: Stream, pos: nat)
    requires detector.efficiency >= 1.0
    requires forall j :: draws(j) < 1.0
    ensures var t := CountPhotons(k, detector, draws, pos);
      t.detected + t.errors == k && t.next == pos + 2 * k
  {
    if k > 0 {
      AllDetectedAtFullEfficiency(k - 1, detector, draws, pos);
    }
  }

  /** An ideal channel and detector (every photon detected, no errors, no
      dark counts) deliver the sender's bit for every non-empty pulse
      measured in its own basis. */
  lemma IdealDetectorDeliversBit(v: PulseView, detector: Detector, draws: Stream, pos: nat)
    requires v.photons > 0
    requires detector.efficiency >= 1.0 && detector.errorRate <= 0.0 && detector.darkCountRate <= 0.0
    requires forall j :: 0.0 <= draws(j) < 1.0
    ensures Measurement(v, v.basis, detector, draws, pos).outcome == Bit(v.bit)
  {
    NoErrorsWithoutErrorRate(v.photons, detector, draws, pos);
    AllDetectedAtFullEfficiency(v.photons, detector, draws, pos);
  }

  /** The per-photon loop reads only the draws it consumes. */
  lemma {:induction false} CountPhotonsSameDraws(k: nat, detector: Detector, d1: Stream, d2: Stream, pos: nat)
    requires forall j :: pos <= j < pos + 2 * k ==> d1(j) == d2(j)
    ensures CountPhotons(k, detector, d1, pos) == CountPhotons(k, detector, d2, pos)
  {
    if k > 0 {
      CountPhotonsSameDraws(k - 1, detector, d1, d2, pos);
      var t := CountPhotons(k - 1, detector, d1, pos);
      assert d1(t.next) == d2(t.next) && d1(t.next + 1) == d2(t.next + 1);
      assert PhotonStep(t, detector, d1) == PhotonStep(t, detector, d2);
    }
  }

  /** A measurement is determined by the draws between `pos` and the most it
      can consume: replaying the same seed replays the outcome. */
  lemma MeasurementSameDraws(v: PulseView, measurementBasis: Bit, detector: Detector,
                             d1: Stream, d2: Stream, pos: nat)
    requires forall j :: pos <= j < pos + 2 * v.photons + 2 ==> d1(j) == d2(j)
    ensures Measurement(v, measurementBasis, detector, d1, pos)
         == Measurement(v, measurementBasis, detector, d2, pos)
  {
    CountPhotonsSameDraws(v.photons, detector, d1, d2, pos);
  }
}
