/** The receiver of the earlier revision: random bases, and two lists that
    every call extends, one with a result per pulse ('No detection' for a
    pulse that gave none) and one that receives the whole input list once
    per pulse. */
module LegacyReceiverRole {
  import opened Common
  import opened Role
  import opened LegacyPulse
  import Pulse

  /** `n` copies of `x`. */
  function Repeat<T>(x: T, n: nat): (r: seq<T>)
    ensures |r| == n && forall i :: 0 <= i < n ==> r[i] == x
  {
    if n == 0 then [] else Repeat(x, n - 1) + [x]
  }

  /** The outcomes of the first `k` pulses and the position of the next
      unused draw. */
  datatype Measurements = Measurements(outcomes: seq<Outcome>, next: nat)

  /** What the receiver records for one measurement: the bit, or
      'No detection' in place of None. */
  function Recorded(out: Option<Bit>): (o: Outcome)
    ensures o != WrongBasis
    ensures o == NoDetection <==> out.None?
    ensures out.Some? ==> o == Bit(out.value)
  {
    if out.Some? then Bit(out.value) else NoDetection
  }

  /** Measuring the first `k` pulses in order, pulse i in basis i with shot
      stream `shots(i)`, each measurement continuing the draw stream where
      the previous one stopped. */
  function MeasureFirst(vs: seq<Pulse.PulseView>, bases: seq<Bit>, draws: Stream, shots: nat -> Stream,
                        k: nat): (m: Measurements)
    requires k <= |vs| <= |bases|
    ensures |m.outcomes| == k
  {
    if k == 0 then Measurements([], 0)
    else
      var done := MeasureFirst(vs, bases, draws, shots, k - 1);
      var last := Measurement(vs[k - 1], bases[k - 1], draws, done.next, shots(k - 1));
      Measurements(done.outcomes + [Recorded(last.outcome)], last.next)
  }

  /** The results of measuring every pulse. */
  function MeasureSequence(vs: seq<Pulse.PulseView>, bases: seq<Bit>, draws: Stream,
                           shots: nat -> Stream): seq<Outcome>
    requires |vs| <= |bases|
  {
    MeasureFirst(vs, bases, draws, shots, |vs|).outcomes
  }

  /** Earlier results are never revised: measuring more pulses extends the
      list of results. */
  lemma {:induction false} MeasureFirstExtends(vs: seq<Pulse.PulseView>, bases: seq<Bit>, draws: Stream,
                                               shots: nat -> Stream, j: nat, k: nat)
    requires j <= k <= |vs| <= |bases|
    ensures MeasureFirst(vs, bases, draws, shots, k).outcomes[..j]
         == MeasureFirst(vs, bases, draws, shots, j).outcomes
    decreases k
  {
    if j < k {
      MeasureFirstExtends(vs, bases, draws, shots, j, k - 1);
      var shorter := MeasureFirst(vs, bases, draws, shots, k - 1).outcomes;
      var longer := MeasureFirst(vs, bases, draws, shots, k).outcomes;
      assert longer == shorter + [longer[k - 1]];
      assert longer[..j] == shorter[..j];
    } else {
      assert MeasureFirst(vs, bases, draws, shots, k).outcomes[..j]
          == MeasureFirst(vs, bases, draws, shots, k).outcomes;
    }
  }

  /** The result of pulse i is its measurement in basis i, started at the
      draw where the measurements before it stopped. */
  lemma {:induction false} MeasureFirstAt(vs: seq<Pulse.PulseView>, bases: seq<Bit>, draws: Stream, shots: nat -> Stream,
                       k: nat, i: nat)
    requires i < k <= |vs| <= |bases|
    ensures MeasureFirst(vs, bases, draws, shots, k).outcomes[i]
         == Recorded(Measurement(vs[i], bases[i], draws,
                                 MeasureFirst(vs, bases, draws, shots, i).next, shots(i)).outcome)
  {
    MeasureFirstExtends(vs, bases, draws, shots, i + 1, k);
    assert MeasureFirst(vs, bases, draws, shots, k).outcomes[i]
        == MeasureFirst(vs, bases, draws, shots, k).outcomes[..i + 1][i];
  }

  /** This receiver never reports a wrong basis, and every pulse that
      carries a photon is detected, whatever the basis. */
  lemma AlwaysDetectsPhotons(vs: seq<Pulse.PulseView>, bases: seq<Bit>, draws: Stream,
                             shots: nat -> Stream, i: nat)
    requires i < |vs| <= |bases|
    ensures MeasureSequence(vs, bases, draws, shots)[i] != WrongBasis
    ensures vs[i].photons > 0 ==> MeasureSequence(vs, bases, draws, shots)[i].Bit?
  {
    MeasureFirstAt(vs, bases, draws, shots, |vs|, i);
  }

  /** A pulse that carries a photon and is measured in its own basis gives
      the sender's bit: this revision has no detector noise. */
  lemma OwnBasisGetsBit(vs: seq<Pulse.PulseView>, bases: seq<Bit>, draws: Stream, shots: nat -> Stream,
                        i: nat)
    requires i < |vs| <= |bases|
    requires bases[i] == vs[i].basis && vs[i].photons > 0
    ensures MeasureSequence(vs, bases, draws, shots)[i] == Bit(vs[i].bit)
  {
    MeasureFirstAt(vs, bases, draws, shots, |vs|, i);
    MeasuredInOwnBasis(vs[i], draws, MeasureFirst(vs, bases, draws, shots, i).next, shots(i));
  }

  /** One turn of the receiving loop: the next pulse's measurement extends
      the results. */
  lemma MeasureFirstStep(vs: seq<Pulse.PulseView>, bases: seq<Bit>, draws: Stream, shots: nat -> Stream,
                         i: nat, outs: seq<Outcome>, pos: nat, out: Option<Bit>, next: nat)
    requires i < |vs| <= |bases|
    requires MeasureFirst(vs, bases, draws, shots, i) == Measurements(outs, pos)
    requires Measured(out, next) == Measurement(vs[i], bases[i], draws, pos, shots(i))
    ensures MeasureFirst(vs, bases, draws, shots, i + 1) == Measurements(outs + [Recorded(out)], next)
  {
  }

  /** One turn of the receiving loop: pulse i is measured in basis i from
      draw `pos` on, and the results so far grow by its result. */
  method MeasureNext(input: seq<State>, ghost vs: seq<Pulse.PulseView>, bases: seq<Bit>, draws: Stream,
                     shots: nat -> Stream, i: nat, ghost outs: seq<Outcome>, pos: nat)
    returns (result: Outcome, next: nat)
    requires i < |input| <= |bases| && vs == Views(input) && input[i].Valid()
    requires MeasureFirst(vs, bases, draws, shots, i) == Measurements(outs, pos)
    ensures MeasureFirst(vs, bases, draws, shots, i + 1) == Measurements(outs + [result], next)
  {
    ViewsAt(input, i);
    var out;
    out, next := input[i].MeasureState(bases[i], draws, pos, shots(i));
    MeasureFirstStep(vs, bases, draws, shots, i, outs, pos, out, next);
    result := Recorded(out);
  }

  /** The measuring loop of `perform_action`: every pulse in turn, each
      continuing the draw stream where the previous one stopped. */
  method MeasureAll(input: seq<State>, bases: seq<Bit>, draws: Stream, shots: nat -> Stream)
    returns (results: seq<Outcome>)
    requires |input| <= |bases|
    requires forall i {:trigger input[i].Valid()} :: 0 <= i < |input| ==> input[i].Valid()
    ensures results == MeasureSequence(Views(input), bases, draws, shots)
  {
    ghost var vs := Views(input);
    results := [];
    var pos := 0;
    var i := 0;
    while i < |input|
      invariant 0 <= i <= |input|
      invariant MeasureFirst(vs, bases, draws, shots, i) == Measurements(results, pos)
    {
      var result, next := MeasureNext(input, vs, bases, draws, shots, i, results, pos);
      results := results + [result];
      pos := next;
      i := i + 1;
    }
  }

  class Receiver {
    const numBits: nat
    const bases: seq<Bit>
    var measurementResults: seq<Outcome>
    var states: seq<seq<State>>

    ghost predicate Valid()
    {
      |bases| == numBits
    }

    /** `Receiver(num_bits)`: fair random bases drawn from the unseeded
        generator, and two empty lists. */
    constructor (numBits: nat, entropy: Stream)
      ensures Valid() && this.numBits == numBits
      ensures bases == RandomBitSelection(numBits, entropy)
      ensures measurementResults == [] && states == []
    {
      this.numBits := numBits;
      bases := RandomBitSelection(numBits, entropy);
      measurementResults := [];
      states := [];
    }

    /** `perform_action`: pulse i is measured in basis i and its result
        appended; the whole input list is appended to the pulse list once
        per pulse. Both lists are extended once the loop is done, which
        leaves them as the per-pulse appends would. A pulse past the last
        basis stops the loop with IndexError, after the pulses before it. */
    method PerformAction(input: seq<State>, draws: Stream, shots: nat -> Stream) returns (err: Option<Error>)
      requires Valid()
      requires forall i {:trigger input[i].Valid()} :: 0 <= i < |input| ==> input[i].Valid()
      modifies this`measurementResults, this`states
      ensures var m := if |input| <= numBits then |input| else numBits;
        measurementResults == old(measurementResults) + MeasureSequence(Views(input[..m]), bases, draws, shots) &&
        states == old(states) + Repeat(input, m) &&
        (err.None? <==> |input| <= numBits) && (err.Some? ==> err == Some(IndexError))
    {
      var m := if |input| <= numBits then |input| else numBits;
      var results := MeasureAll(input[..m], bases, draws, shots);
      measurementResults, states := measurementResults + results, states + Repeat(input, m);
      err := if m < |input| then Some(IndexError) else None;
    }
  }
}
