/** The receiver of the current revision: random measurement bases chosen
    at construction, and a result array and pulse array filled index by
    index as the incoming pulses are measured. */
module ReceiverRole {
  import opened Common
  import opened Role
  import opened Pulse

  /** The outcomes of the first `k` pulses and the position of the next
      unused draw. */
  datatype Measurements = Measurements(outcomes: seq<Outcome>, next: nat)

  /** Measuring the first `k` pulses in order, pulse i in basis i, each
      measurement continuing the draw stream where the previous one
      stopped. Only a pulse whose basis differs from the receiver's is
      reported as a wrong basis. */
  function MeasureFirst(vs: seq<PulseView>, bases: seq<Bit>, detector: Detector, draws: Stream,
                        k: nat): (m: Measurements)
    requires k <= |vs| <= |bases|
    ensures |m.outcomes| == k
  {
    if k == 0 then Measurements([], 0)
    else
      var done := MeasureFirst(vs, bases, detector, draws, k - 1);
      var last := Measurement(vs[k - 1], bases[k - 1], detector, draws, done.next);
      Measurements(done.outcomes + [last.outcome], last.next)
  }

  /** The outcomes of measuring every pulse. */
  function MeasureSequence(vs: seq<PulseView>, bases: seq<Bit>, detector: Detector,
                           draws: Stream): seq<Outcome>
    requires |vs| <= |bases|
  {
    MeasureFirst(vs, bases, detector, draws, |vs|).outcomes
  }

  /** The outcome of a pulse does not depend on the pulses after it. */
  lemma {:induction false} MeasureFirstPrefix(vs: seq<PulseView>, ws: seq<PulseView>, bases: seq<Bit>,
                                              detector: Detector, draws: Stream, k: nat)
    requires k <= |vs| <= |bases| && k <= |ws| <= |bases|
    requires vs[..k] == ws[..k]
    ensures MeasureFirst(vs, bases, detector, draws, k) == MeasureFirst(ws, bases, detector, draws, k)
  {
    if k > 0 {
      assert vs[..k - 1] == vs[..k][..k - 1] && ws[..k - 1] == ws[..k][..k - 1];
      MeasureFirstPrefix(vs, ws, bases, detector, draws, k - 1);
      assert vs[k - 1] == vs[..k][k - 1] == ws[..k][k - 1] == ws[k - 1];
    }
  }

  /** Earlier outcomes are never revised: measuring more pulses extends the
      list of outcomes. */
  lemma {:induction false} MeasureFirstExtends(vs: seq<PulseView>, bases: seq<Bit>, detector: Detector,
                                               draws: Stream, j: nat, k: nat)
    requires j <= k <= |vs| <= |bases|
    ensures MeasureFirst(vs, bases, detector, draws, k).outcomes[..j]
         == MeasureFirst(vs, bases, detector, draws, j).outcomes
    decreases k
  {
    if j < k {
      MeasureFirstExtends(vs, bases, detector, draws, j, k - 1);
      var shorter := MeasureFirst(vs, bases, detector, draws, k - 1).outcomes;
      assert MeasureFirst(vs, bases, detector, draws, k).outcomes[..k - 1] == shorter;
      assert MeasureFirst(vs, bases, detector, draws, k).outcomes[..j] == shorter[..j];
    } else {
      assert MeasureFirst(vs, bases, detector, draws, k).outcomes[..j]
          == MeasureFirst(vs, bases, detector, draws, k).outcomes;
    }
  }

  /** Measuring a prefix of the pulses gives a prefix of the outcomes: the
      outcome of pulse i never depends on a pulse that arrives after it. */
  lemma MeasurePrefix(vs: seq<PulseView>, k: nat, bases: seq<Bit>, detector: Detector, draws: Stream)
    requires k <= |vs| <= |bases|
    ensures MeasureSequence(vs[..k], bases, detector, draws)
         == MeasureSequence(vs, bases, detector, draws)[..k]
  {
    assert vs[..k][..k] == vs[..k];
    MeasureFirstPrefix(vs[..k], vs, bases, detector, draws, k);
    MeasureFirstExtends(vs, bases, detector, draws, k, |vs|);
  }

  /** The outcome of pulse i is the measurement of that pulse in basis i,
      started at the draw where the measurements before it stopped. */
  lemma MeasureFirstAt(vs: seq<PulseView>, bases: seq<Bit>, detector: Detector, draws: Stream,
                       k: nat, i: nat)
    requires i < k <= |vs| <= |bases|
    ensures MeasureFirst(vs, bases, detector, draws, k).outcomes[i]
         == Measurement(vs[i], bases[i], detector, draws,
                        MeasureFirst(vs, bases, detector, draws, i).next).outcome
  {
    MeasureFirstExtends(vs, bases, detector, draws, i + 1, k);
    assert MeasureFirst(vs, bases, detector, draws, k).outcomes[i]
        == MeasureFirst(vs, bases, detector, draws, k).outcomes[..i + 1][i];
  }

  /** The receiver reports a wrong basis exactly for the pulses whose basis
      differs from its own. */
  lemma WrongBasisExactly(vs: seq<PulseView>, bases: seq<Bit>, detector: Detector, draws: Stream,
                          i: nat)
    requires i < |vs| <= |bases|
    ensures MeasureSequence(vs, bases, detector, draws)[i] == WrongBasis <==> bases[i] != vs[i].basis
  {
    MeasureFirstAt(vs, bases, detector, draws, |vs|, i);
  }

  /** With an ideal detector every non-empty pulse measured in its own basis
      yields the sender's bit, whatever the pulses around it. */
  lemma IdealReceiverGetsBit(vs: seq<PulseView>, bases: seq<Bit>, detector: Detector, draws: Stream,
                             i: nat)
    requires i < |vs| <= |bases|
    requires bases[i] == vs[i].basis && vs[i].photons > 0
    requires detector.efficiency >= 1.0 && detector.errorRate <= 0.0 && detector.darkCountRate <= 0.0
    requires forall j :: 0.0 <= draws(j) < 1.0
    ensures MeasureSequence(vs, bases, detector, draws)[i] == Bit(vs[i].bit)
  {
    MeasureFirstAt(vs, bases, detector, draws, |vs|, i);
    IdealDetectorDeliversBit(vs[i], detector, draws, MeasureFirst(vs, bases, detector, draws, i).next);
  }

  /** One turn of the receiving loop: the next pulse's measurement extends
      the outcomes. */
  lemma MeasureFirstStep(vs: seq<PulseView>, bases: seq<Bit>, detector: Detector, draws: Stream,
                         i: nat, outs: seq<Outcome>, pos: nat, out: Outcome, next: nat)
    requires i < |vs| <= |bases|
    requires MeasureFirst(vs, bases, detector, draws, i) == Measurements(outs, pos)
    requires Measured(out, next) == Measurement(vs[i], bases[i], detector, draws, pos)
    ensures MeasureFirst(vs, bases, detector, draws, i + 1) == Measurements(outs + [out], next)
  {
  }

  class Receiver {
    const numBits: nat
    const bases: seq<Bit>
    var key: seq<Option<Outcome>>
    var states: seq<State?>

    ghost predicate Valid()
      reads this
    {
      |bases| == numBits && |key| == numBits && |states| == numBits
    }

    /** `Receiver(num_bits)`: fair random bases, and a result list and a
        pulse list of `num_bits` empty slots. */
    constructor (numBits: nat, basisDraws: Stream)
      ensures Valid() && this.numBits == numBits
      ensures bases == RandomBitSelection(numBits, basisDraws)
      ensures key == seq(numBits, _ => None) && states == seq(numBits, _ => null)
    {
      this.numBits := numBits;
      bases := RandomBitSelection(numBits, basisDraws);
      key := seq(numBits, _ => None);
      states := seq(numBits, _ => null);
    }

    /** `perform_action`: pulse i is measured in basis i, its outcome stored
        in slot i of the result list and the pulse itself in slot i of the
        pulse list; slots past the input keep what they held. An input
        longer than the lists would write out of range. */
    method PerformAction(input: seq<State>, detector: Detector, draws: Stream, shots: nat -> Stream)
      requires Valid()
      requires |input| <= numBits
      requires forall i {:trigger input[i].Valid()} :: 0 <= i < |input| ==> input[i].Valid()
      modifies this`key, this`states
      ensures Valid()
      ensures forall i :: 0 <= i < |input| ==>
        key[i] == Some(MeasureSequence(Views(input), bases, detector, draws)[i])
      ensures forall i :: 0 <= i < |input| ==> states[i] == input[i]
      ensures forall j :: |input| <= j < numBits ==> key[j] == old(key[j])
      ensures forall j :: |input| <= j < numBits ==> states[j] == old(states[j])
    {
      ghost var vs := Views(input);
      ghost var outs: seq<Outcome> := [];
      var pos := 0;
      var i := 0;
      while i < |input|
        invariant 0 <= i <= |input|
        invariant Valid()
        invariant MeasureFirst(vs, bases, detector, draws, i) == Measurements(outs, pos)
        invariant forall j :: 0 <= j < i ==> key[j] == Some(outs[j])
        invariant forall j :: 0 <= j < i ==> states[j] == input[j]
        invariant forall j :: i <= j < numBits ==> key[j] == old(key[j])
        invariant forall j :: i <= j < numBits ==> states[j] == old(states[j])
      {
        ViewsAt(input, i);
        var out, next := input[i].MeasureState(bases[i], detector, draws, pos, shots(i));
        MeasureFirstStep(vs, bases, detector, draws, i, outs, pos, out, next);
        outs := outs + [out];
        key, states := key[i := Some(out)], states[i := input[i]];
        pos := next;
        i := i + 1;
      }
    }
  }
}
