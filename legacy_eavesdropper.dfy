/** The eavesdropper of the earlier revision: the same photon-number-
    splitting attack as the current one, but its lists are extended by
    every call, and the pulse sent in place of a blocked single photon is
    a fresh pulse whose mean is the vacuum mean, so it may itself carry
    photons. */
module LegacyEavesdropperRole {
  import opened Common
  import opened Circuit
  import opened LegacyPulse
  import Pulse
  import EavesdropperRole

  /** The photon count of the replacement pulse, drawn for the vacuum
      mean. */
  function VacuumPhotons(vacuumMean: real, sample: nat): (n: nat)
    requires vacuumMean >= 0.0
    ensures Poisson(vacuumMean, sample) == Ok(n)
    ensures vacuumMean == 0.0 ==> n == 0
  {
    Poisson(vacuumMean, sample).value
  }

  /** The pulse sent on to the receiver: for a single photon a new pulse
      with a random bit and basis and `vacuumPhotons` photons, otherwise
      what is left of the original. */
  function ForwardView(v: Pulse.PulseView, bitDraw: real, basisDraw: real, vacuumPhotons: nat)
    : (w: Pulse.PulseView)
    ensures v.photons == 1 ==> w == Pulse.PulseView(CoinOf(bitDraw), CoinOf(basisDraw), vacuumPhotons)
    ensures v.photons != 1 ==> w == EavesdropperRole.Remaining(v)
  {
    if v.photons == 1 then Pulse.PulseView(CoinOf(bitDraw), CoinOf(basisDraw), vacuumPhotons)
    else EavesdropperRole.Remaining(v)
  }

  /** When the replacement pulse is empty, the earlier attack forwards
      exactly what the current one does. */
  lemma ForwardAsCurrentWhenEmpty(v: Pulse.PulseView, bitDraw: real, basisDraw: real)
    ensures ForwardView(v, bitDraw, basisDraw, 0) == EavesdropperRole.ForwardView(v, bitDraw, basisDraw)
  {
  }

  /** A pulse forwarded in place of a blocked photon carries a random bit
      and basis; every other forwarded pulse keeps the sender's encoding
      and loses at most one photon. */
  lemma ForwardKeepsEncoding(v: Pulse.PulseView, bitDraw: real, basisDraw: real, vacuumPhotons: nat)
    ensures v.photons != 1 ==>
      ForwardView(v, bitDraw, basisDraw, vacuumPhotons).bit == v.bit &&
      ForwardView(v, bitDraw, basisDraw, vacuumPhotons).basis == v.basis &&
      ForwardView(v, bitDraw, basisDraw, vacuumPhotons).photons == if v.photons > 1 then v.photons - 1 else 0
    ensures v.photons == 1 ==>
      ForwardView(v, bitDraw, basisDraw, vacuumPhotons).bit == CoinOf(bitDraw) &&
      ForwardView(v, bitDraw, basisDraw, vacuumPhotons).basis == CoinOf(basisDraw)
  {
  }

  /** One turn of the interception loop on pulse `s`. A multi-photon pulse
      loses a photon in place and its circuit is rebuilt; a single photon
      is replaced by a new pulse whose bit and basis come from the two
      draws and whose photon count is drawn for the vacuum mean. */
  method Intercept(s: State, bitDraw: real, basisDraw: real, vacuumMean: real, sample: nat)
    returns (entry: EavesdropperRole.EveKey, extracted: Option<seq<Gate>>, forwarded: State)
    requires s.Valid() && vacuumMean >= 0.0
    modifies s
    ensures entry == EavesdropperRole.InterceptKey(old(s.numQubits))
    ensures extracted == EavesdropperRole.Extracted(old(s.View()))
    ensures forwarded.Valid()
    ensures forwarded.View() == ForwardView(old(s.View()), bitDraw, basisDraw, VacuumPhotons(vacuumMean, sample))
    ensures s.View() == EavesdropperRole.Remaining(old(s.View())) && s.Valid()
    ensures old(s.numQubits) == 1 ==> fresh(forwarded) && forwarded.meanPhotonNumber == vacuumMean
    ensures old(s.numQubits) != 1 ==> forwarded == s
  {
    if s.numQubits == 0 {
      entry, extracted, forwarded := EavesdropperRole.Empty, None, s;
    } else if s.numQubits == 1 {
      var r := NewState(CoinOf(bitDraw), CoinOf(basisDraw), vacuumMean, sample);
      entry, extracted, forwarded := EavesdropperRole.Blocked, None, r.value;
    } else {
      extracted := Some(PrepareGates(s.bitValue, s.basis, 1));
      entry := EavesdropperRole.Pending;
      s.numQubits := s.numQubits - 1;
      s.circuit := [];
      s.PrepareState();
      forwarded := s;
    }
  }

  /** One turn of the loop of `perform_action`, for pulses whose views on
      entry were `vs`: pulse i is intercepted and the three lists grow by
      its entries. */
  method InterceptNext(states: seq<State>, ghost vs: seq<Pulse.PulseView>, coins: Stream, vacuumMean: real,
                       vacuumDraws: PoissonStream, i: nat, keys: seq<EavesdropperRole.EveKey>,
                       kept: seq<Option<seq<Gate>>>, sent: seq<State>)
    returns (keys': seq<EavesdropperRole.EveKey>, kept': seq<Option<seq<Gate>>>, sent': seq<State>)
    requires i < |states| == |vs| && |keys| == i && |kept| == i && |sent| == i && vacuumMean >= 0.0
    requires forall j, k {:trigger states[j], states[k]} ::
      0 <= j < |states| && 0 <= k < |states| && j != k ==> states[j] != states[k]
    requires forall j :: 0 <= j < |states| ==>
      if j < i then
        keys[j] == EavesdropperRole.InterceptKey(vs[j].photons) && kept[j] == EavesdropperRole.Extracted(vs[j]) &&
        sent[j].Valid() &&
        sent[j].View() == ForwardView(vs[j], coins(2 * j), coins(2 * j + 1), VacuumPhotons(vacuumMean, vacuumDraws(j))) &&
        states[j].View() == EavesdropperRole.Remaining(vs[j]) && states[j].Valid() &&
        (if vs[j].photons == 1 then sent[j] !in states else sent[j] == states[j])
      else
        states[j].View() == vs[j] && states[j].Valid()
    modifies states[i]
    ensures |keys'| == i + 1 && |kept'| == i + 1 && |sent'| == i + 1 && sent'[..i] == sent
    ensures vs[i].photons == 1 ==> fresh(sent'[i])
    ensures forall j :: 0 <= j < |states| ==>
      if j < i + 1 then
        keys'[j] == EavesdropperRole.InterceptKey(vs[j].photons) && kept'[j] == EavesdropperRole.Extracted(vs[j]) &&
        sent'[j].Valid() &&
        sent'[j].View() == ForwardView(vs[j], coins(2 * j), coins(2 * j + 1), VacuumPhotons(vacuumMean, vacuumDraws(j))) &&
        states[j].View() == EavesdropperRole.Remaining(vs[j]) && states[j].Valid() &&
        (if vs[j].photons == 1 then sent'[j] !in states else sent'[j] == states[j])
      else
        states[j].View() == vs[j] && states[j].Valid()
  {
    var entry, extracted, out := Intercept(states[i], coins(2 * i), coins(2 * i + 1), vacuumMean, vacuumDraws(i));
    keys', kept', sent' := keys + [entry], kept + [extracted], sent + [out];
  }

  /** What the attack leaves, for pulses whose views before it were `vs`:
      one result and one kept-qubit entry per pulse, each forwarded pulse
      as `ForwardView` gives it, and every original pulse with what
      `Remaining` leaves of it. */
  ghost predicate Intercepted(vs: seq<Pulse.PulseView>, states: seq<State>, keys: seq<EavesdropperRole.EveKey>,
                              kept: seq<Option<seq<Gate>>>, sent: seq<State>, coins: Stream, vacuumMean: real,
                              vacuumDraws: PoissonStream)
    requires vacuumMean >= 0.0
    reads states, sent
  {
    |states| == |vs| && |keys| == |vs| && |kept| == |vs| && |sent| == |vs| &&
    forall i :: 0 <= i < |vs| ==>
      keys[i] == EavesdropperRole.InterceptKey(vs[i].photons) &&
      kept[i] == EavesdropperRole.Extracted(vs[i]) &&
      sent[i].Valid() &&
      sent[i].View() == ForwardView(vs[i], coins(2 * i), coins(2 * i + 1), VacuumPhotons(vacuumMean, vacuumDraws(i))) &&
      states[i].View() == EavesdropperRole.Remaining(vs[i]) && states[i].Valid()
  }

  /** The interception loop of `perform_action`: pulse i goes through
      `Intercept` with the draws `coins(2 * i)`, `coins(2 * i + 1)` and
      `vacuumDraws(i)`. A single photon is replaced by a new pulse; every
      other pulse is forwarded itself. The pulses are distinct objects, as
      the sender creates them. */
  method InterceptAll(states: seq<State>, coins: Stream, vacuumMean: real, vacuumDraws: PoissonStream)
    returns (keys: seq<EavesdropperRole.EveKey>, kept: seq<Option<seq<Gate>>>, sent: seq<State>)
    requires vacuumMean >= 0.0
    requires forall i {:trigger states[i].Valid()} :: 0 <= i < |states| ==> states[i].Valid()
    requires forall i, j {:trigger states[i], states[j]} ::
      0 <= i < |states| && 0 <= j < |states| && i != j ==> states[i] != states[j]
    modifies states
    ensures Intercepted(old(Views(states)), states, keys, kept, sent, coins, vacuumMean, vacuumDraws)
    ensures forall i :: 0 <= i < |states| ==>
      if old(states[i].numQubits) == 1 then fresh(sent[i]) && sent[i] !in states
      else sent[i] == states[i]
  {
    ghost var vs := Views(states);
    forall i | 0 <= i < |states|
      ensures vs[i] == states[i].View()
    {
      ViewsAt(states, i);
    }
    keys, kept, sent := [], [], [];
    var i := 0;
    while i < |states|
      invariant 0 <= i <= |states| == |vs|
      invariant |keys| == i && |kept| == i && |sent| == i
      invariant forall j :: 0 <= j < |states| ==> vs[j] == old(states[j].View())
      invariant forall j :: 0 <= j < |states| ==>
        if j < i then
          keys[j] == EavesdropperRole.InterceptKey(vs[j].photons) && kept[j] == EavesdropperRole.Extracted(vs[j]) &&
          sent[j].Valid() &&
          sent[j].View() == ForwardView(vs[j], coins(2 * j), coins(2 * j + 1), VacuumPhotons(vacuumMean, vacuumDraws(j))) &&
          states[j].View() == EavesdropperRole.Remaining(vs[j]) && states[j].Valid() &&
          (if vs[j].photons == 1 then sent[j] !in states else sent[j] == states[j])
        else
          states[j].View() == vs[j] && states[j].Valid()
      invariant forall j :: 0 <= j < i && vs[j].photons == 1 ==> fresh(sent[j])
    {
      keys, kept, sent := InterceptNext(states, vs, coins, vacuumMean, vacuumDraws, i, keys, kept, sent);
      i := i + 1;
    }
  }

  /** The reading loop of `post_process` on the result list `results`:
      base i becomes the sender's base i, and a kept qubit still unread is
      read in that basis, one shot drawn from `shots(i)`. A result list
      longer than the sender's bases stops the loop with IndexError at the
      first index the sender has no base for. */
  method RevealAll(results: seq<EavesdropperRole.EveKey>, extracted: seq<Option<seq<Gate>>>,
                   senderBases: seq<Bit>, shots: nat -> Stream)
    returns (eveBases: seq<Bit>, revealed: seq<EavesdropperRole.EveKey>, err: Option<Error>)
    requires |results| <= |extracted|
    ensures var m := if |results| <= |senderBases| then |results| else |senderBases|;
      eveBases == senderBases[..m] && |revealed| == |results| &&
      (err.None? <==> |results| <= |senderBases|) && (err.Some? ==> err == Some(IndexError)) &&
      forall i :: 0 <= i < |results| ==>
        revealed[i] == if i < m then EavesdropperRole.Reveal(results[i], extracted[i], senderBases[i], shots(i))
                       else results[i]
  {
    eveBases, revealed := [], results;
    var i := 0;
    while i < |results|
      invariant 0 <= i <= |results| && i <= |senderBases| && |revealed| == |results|
      invariant eveBases == senderBases[..i]
      invariant forall j :: 0 <= j < |results| ==>
        revealed[j] == if j < i then EavesdropperRole.Reveal(results[j], extracted[j], senderBases[j], shots(j))
                       else results[j]
    {
      if i == |senderBases| {
        return eveBases, revealed, Some(IndexError);
      }
      var eveBasis := senderBases[i];
      eveBases := eveBases + [eveBasis];
      if revealed[i] == EavesdropperRole.Pending {
        var extractedQubit := extracted[i];
        if extractedQubit.Some? {
          var measuredBit := EavesdropperRole.ReadQubit(extractedQubit.value, eveBasis, shots(i));
          revealed := revealed[i := EavesdropperRole.Revealed(measuredBit)];
        }
      }
      i := i + 1;
    }
    err := None;
  }

  class Eavesdropper {
    var bases: seq<Bit>
    var measurementResults: seq<EavesdropperRole.EveKey>
    var forwardedStates: seq<State>
    var extractedQubits: seq<Option<seq<Gate>>>

    /** `Eavesdropper()`: four empty lists. */
    constructor ()
      ensures bases == [] && measurementResults == [] && forwardedStates == [] && extractedQubits == []
    {
      bases, measurementResults, forwardedStates, extractedQubits := [], [], [], [];
    }

    /** `perform_action`: the result, kept-qubit and forwarded lists each
        grow by one entry per pulse, as `Intercepted` describes them, and
        the whole forwarded list is returned. A blocked photon is replaced
        by a pulse whose mean is `vacuumMean`. */
    method PerformAction(states: seq<State>, coins: Stream, vacuumMean: real, vacuumDraws: PoissonStream)
      returns (forwarded: seq<State>)
      requires vacuumMean >= 0.0
      requires forall i {:trigger states[i].Valid()} :: 0 <= i < |states| ==> states[i].Valid()
      requires forall i, j {:trigger states[i], states[j]} ::
        0 <= i < |states| && 0 <= j < |states| && i != j ==> states[i] != states[j]
      modifies this`measurementResults, this`forwardedStates, this`extractedQubits
      modifies states
      ensures forwarded == forwardedStates
      ensures old(measurementResults) <= measurementResults && old(extractedQubits) <= extractedQubits
      ensures old(forwardedStates) <= forwardedStates
      ensures Intercepted(old(Views(states)), states, measurementResults[|old(measurementResults)|..],
                          extractedQubits[|old(extractedQubits)|..], forwardedStates[|old(forwardedStates)|..],
                          coins, vacuumMean, vacuumDraws)
    {
      var keys, kept, sent := InterceptAll(states, coins, vacuumMean, vacuumDraws);
      ghost var n0, k0, f0 := |measurementResults|, |extractedQubits|, |forwardedStates|;
      measurementResults, extractedQubits, forwardedStates :=
        measurementResults + keys, extractedQubits + kept, forwardedStates + sent;
      assert measurementResults[n0..] == keys && extractedQubits[k0..] == kept && forwardedStates[f0..] == sent;
      forwarded := forwardedStates;
    }

    /** `post_process`: one base per result is appended (the sender's base
        at that index), and every unread kept qubit is read in that basis.
        The kept-qubit list grows with the result list in `perform_action`,
        so it is never the shorter. Past the end of the sender's bases the
        loop stops with IndexError, after the entries before it. */
    method PostProcess(senderBases: seq<Bit>, shots: nat -> Stream) returns (err: Option<Error>)
      requires |measurementResults| <= |extractedQubits|
      modifies this`bases, this`measurementResults
      ensures |measurementResults| == |old(measurementResults)|
      ensures var m := if |measurementResults| <= |senderBases| then |measurementResults| else |senderBases|;
        bases == old(bases) + senderBases[..m] &&
        (err.None? <==> |measurementResults| <= |senderBases|) && (err.Some? ==> err == Some(IndexError)) &&
        forall i :: 0 <= i < |measurementResults| ==>
          measurementResults[i] ==
            if i < m then EavesdropperRole.Reveal(old(measurementResults[i]), extractedQubits[i], senderBases[i], shots(i))
            else old(measurementResults[i])
    {
      var eveBases, revealed;
      eveBases, revealed, err := RevealAll(measurementResults, extractedQubits, senderBases, shots);
      bases, measurementResults := bases + eveBases, revealed;
    }
  }
}
