/** The decoy-state BB84 run of the earlier revision: the configuration
    singleton with mu, nu and the dark count rate, a sender holding its
    own copies of them, an optional photon-number-splitting eavesdropper,
    the receiver, key sifting, and the gain and yield estimates. The
    transmittance is given directly, and there is no detector model. */
module LegacyProtocolRun {
  import opened Common
  import opened Sifting
  import Pulse
  import LegacyConfiguration
  import LegacyRole
  import LegacyPulse
  import LegacySenderRole
  import LegacyReceiverRole
  import EavesdropperRole
  import LegacyEavesdropperRole
  import ProtocolRun
  import Circuit

  /** The photon count of a pulse drawn for `mean`; a negative mean gives
      none. */
  function SentPhotons(mean: real, sample: nat): (n: nat)
    ensures mean >= 0.0 ==> Poisson(mean, sample) == Ok(n)
  {
    match Poisson(mean, sample)
    case Err(_) => 0
    case Ok(n) => n
  }

  /** The pulses as the sender emits them: key bit i, basis i, and the
      photon count drawn for the mean of label i. */
  function SentViews(alice: LegacySenderRole.Sender, photons: PoissonStream): (vs: seq<Pulse.PulseView>)
    requires alice.Valid()
    ensures |vs| == alice.numBits
  {
    seq(alice.numBits, i requires 0 <= i < alice.numBits =>
      Pulse.PulseView(alice.originalKey[i], alice.bases[i],
                      SentPhotons(alice.IntensityTypeToMeanPhotonNumber(alice.intensityTypes[i]), photons(i))))
  }

  /** The pulses as they reach the receiver: unchanged on a clean channel,
      and after the eavesdropper's interception (pulse i with the draws
      `coins(2 * i)`, `coins(2 * i + 1)` and `vacuumDraws(i)`) otherwise. */
  function ArrivedViews(sent: seq<Pulse.PulseView>, eavesdropper: bool, coins: Stream, vacuumMean: real,
                        vacuumDraws: PoissonStream): (arrived: seq<Pulse.PulseView>)
    requires vacuumMean >= 0.0
    ensures |arrived| == |sent|
  {
    if eavesdropper then seq(|sent|, i requires 0 <= i < |sent| => Forwarded(sent[i], i, coins, vacuumMean, vacuumDraws))
    else sent
  }

  /** Pulse i as the eavesdropper forwards it. */
  function Forwarded(v: Pulse.PulseView, i: nat, coins: Stream, vacuumMean: real, vacuumDraws: PoissonStream)
    : Pulse.PulseView
    requires vacuumMean >= 0.0
  {
    LegacyEavesdropperRole.ForwardView(v, coins(2 * i), coins(2 * i + 1),
                                       LegacyEavesdropperRole.VacuumPhotons(vacuumMean, vacuumDraws(i)))
  }

  /** Results as `state_gain` sees them: every slot holds a result. */
  function Lifted(results: seq<Outcome>): (r: seq<Option<Outcome>>)
    ensures |r| == |results|
    ensures forall i :: 0 <= i < |r| ==> r[i] == Some(results[i])
  {
    seq(|results|, i requires 0 <= i < |results| => Some(results[i]))
  }

  /** On a clean channel every sifted entry for a pulse that carries a
      photon is the sender's bit: without detector noise, agreeing bases
      deliver the key. */
  lemma HonestSiftIsKey(sent: seq<Pulse.PulseView>, aBases: seq<Bit>, bBases: seq<Bit>, draws: Stream,
                        shots: nat -> Stream)
    requires |sent| <= |aBases| && |sent| <= |bBases|
    requires forall i :: 0 <= i < |sent| ==> sent[i].basis == aBases[i]
    ensures |Sift(aBases, bBases, LegacyReceiverRole.MeasureSequence(sent, bBases, draws, shots), |sent|)|
         == |MatchingIndices(aBases, bBases, |sent|)|
    ensures var idx := MatchingIndices(aBases, bBases, |sent|);
      forall k :: 0 <= k < |idx| && sent[idx[k]].photons > 0 ==>
        Sift(aBases, bBases, LegacyReceiverRole.MeasureSequence(sent, bBases, draws, shots), |sent|)[k]
          == Bit(sent[idx[k]].bit)
  {
    var idx := MatchingIndices(aBases, bBases, |sent|);
    var results := LegacyReceiverRole.MeasureSequence(sent, bBases, draws, shots);
    SiftSelectsMatches(aBases, bBases, results, |sent|);
    forall k | 0 <= k < |idx| && sent[idx[k]].photons > 0
      ensures Sift(aBases, bBases, results, |sent|)[k] == Bit(sent[idx[k]].bit)
    {
      LegacyReceiverRole.OwnBasisGetsBit(sent, bBases, draws, shots, idx[k]);
    }
  }

  /** On a clean channel, when every pulse of a class carries a photon,
      every pulse of that class whose bases agree counts as detected, so
      the gain is the fraction of the class with agreeing bases. */
  lemma HonestDetectionsAreMatches(types: seq<string>, stateType: string, sent: seq<Pulse.PulseView>,
                                   aBases: seq<Bit>, bBases: seq<Bit>, draws: Stream, shots: nat -> Stream,
                                   i: nat)
    requires |types| == |sent| <= |aBases| && |sent| <= |bBases| && i < |sent|
    requires sent[i].photons > 0
    ensures Detected(aBases, bBases, Lifted(LegacyReceiverRole.MeasureSequence(sent, bBases, draws, shots)), i)
        <==> aBases[i] == bBases[i]
  {
    LegacyReceiverRole.AlwaysDetectsPhotons(sent, bBases, draws, shots, i);
  }

  /** A positive count divided by itself is one. */
  lemma WholeRatio(n: nat)
    requires n > 0
    ensures n as real / n as real == 1.0
  {
  }

  /** When the bases agree on every pulse of a class and every such pulse
      carries a photon, the class gain is 1 (or 0 for an empty class). */
  lemma FullGainWhenEveryPulseArrives(types: seq<string>, stateType: string, sent: seq<Pulse.PulseView>,
                                      aBases: seq<Bit>, bBases: seq<Bit>, draws: Stream, shots: nat -> Stream)
    requires |types| == |sent| <= |aBases| && |sent| <= |bBases|
    requires forall i :: 0 <= i < |types| && types[i] == stateType ==>
      sent[i].photons > 0 && aBases[i] == bBases[i]
    ensures Count(types, stateType) > 0 ==>
      StateGain(types, stateType, aBases, bBases, Lifted(LegacyReceiverRole.MeasureSequence(sent, bBases, draws, shots)))
        == 1.0
  {
    var results := Lifted(LegacyReceiverRole.MeasureSequence(sent, bBases, draws, shots));
    forall i | 0 <= i < |types| && types[i] == stateType
      ensures Detected(aBases, bBases, results, i)
    {
      LegacyReceiverRole.AlwaysDetectsPhotons(sent, bBases, draws, shots, i);
    }
    AllDetected(types, stateType, aBases, bBases, results);
    var total := Count(types, stateType);
    if total > 0 {
      assert StateGain(types, stateType, aBases, bBases, results) == total as real / total as real;
      WholeRatio(total);
    }
  }

  /** Pulse i arrives as the eavesdropper forwards it, and untouched on a
      clean channel. */
  lemma ArrivedAt(sent: seq<Pulse.PulseView>, coins: Stream, vacuumMean: real, vacuumDraws: PoissonStream, i: nat)
    requires i < |sent| && vacuumMean >= 0.0
    ensures ArrivedViews(sent, true, coins, vacuumMean, vacuumDraws)[i] == Forwarded(sent[i], i, coins, vacuumMean, vacuumDraws)
    ensures ArrivedViews(sent, false, coins, vacuumMean, vacuumDraws) == sent
  {
  }

  /** The photon-number-splitting attack goes unseen on multi-photon
      pulses: in the sender's basis the receiver gets the sender's bit
      whether or not the eavesdropper is present. */
  lemma SplittingUnseenOnMultiPhotonPulses(sent: seq<Pulse.PulseView>, coins: Stream, vacuumMean: real,
                                           vacuumDraws: PoissonStream, bBases: seq<Bit>, draws: Stream,
                                           shots: nat -> Stream, i: nat)
    requires i < |sent| <= |bBases| && vacuumMean >= 0.0
    requires sent[i].photons > 1 && bBases[i] == sent[i].basis
    ensures LegacyReceiverRole.MeasureSequence(ArrivedViews(sent, true, coins, vacuumMean, vacuumDraws),
                                               bBases, draws, shots)[i] == Bit(sent[i].bit)
    ensures LegacyReceiverRole.MeasureSequence(ArrivedViews(sent, false, coins, vacuumMean, vacuumDraws),
                                               bBases, draws, shots)[i] == Bit(sent[i].bit)
  {
    var arrived := ArrivedViews(sent, true, coins, vacuumMean, vacuumDraws);
    ArrivedAt(sent, coins, vacuumMean, vacuumDraws, i);
    LegacyReceiverRole.OwnBasisGetsBit(arrived, bBases, draws, shots, i);
    LegacyReceiverRole.OwnBasisGetsBit(sent, bBases, draws, shots, i);
  }

  /** A blocked single photon is replaced by a pulse with the
      eavesdropper's own random bit and basis: when that pulse carries
      photons and the receiver happens to use the forged basis, the
      receiver records the forged bit. */
  lemma ForgedBitDelivered(sent: seq<Pulse.PulseView>, coins: Stream, vacuumMean: real,
                           vacuumDraws: PoissonStream, bBases: seq<Bit>, draws: Stream,
                           shots: nat -> Stream, i: nat)
    requires i < |sent| <= |bBases| && vacuumMean >= 0.0
    requires sent[i].photons == 1 && LegacyEavesdropperRole.VacuumPhotons(vacuumMean, vacuumDraws(i)) > 0
    requires bBases[i] == CoinOf(coins(2 * i + 1))
    ensures LegacyReceiverRole.MeasureSequence(ArrivedViews(sent, true, coins, vacuumMean, vacuumDraws),
                                               bBases, draws, shots)[i] == Bit(CoinOf(coins(2 * i)))
  {
    var arrived := ArrivedViews(sent, true, coins, vacuumMean, vacuumDraws);
    ArrivedAt(sent, coins, vacuumMean, vacuumDraws, i);
    LegacyReceiverRole.OwnBasisGetsBit(arrived, bBases, draws, shots, i);
  }

  /** Pulses that show the given views have those views as a list. */
  lemma ViewsOf(states: seq<LegacyPulse.State>, vs: seq<Pulse.PulseView>)
    requires |states| == |vs|
    requires forall i {:trigger states[i]} :: 0 <= i < |states| ==> states[i].View() == vs[i]
    ensures LegacyPulse.Views(states) == vs
  {
    forall i | 0 <= i < |states|
      ensures LegacyPulse.Views(states)[i] == vs[i]
    {
      LegacyPulse.ViewsAt(states, i);
    }
  }

  /** What the eavesdropper forwards is what `ArrivedViews` describes, and
      its key holds one entry per pulse. */
  lemma ForwardedAsArrived(vs: seq<Pulse.PulseView>, states: seq<LegacyPulse.State>,
                           keys: seq<EavesdropperRole.EveKey>, kept: seq<Option<seq<Circuit.Gate>>>,
                           forwarded: seq<LegacyPulse.State>, coins: Stream, vacuumMean: real,
                           vacuumDraws: PoissonStream)
    requires vacuumMean >= 0.0
    requires LegacyEavesdropperRole.Intercepted(vs, states, keys, kept, forwarded, coins, vacuumMean, vacuumDraws)
    ensures |forwarded| == |vs| && |keys| == |vs|
    ensures forall i {:trigger forwarded[i]} :: 0 <= i < |vs| ==>
      forwarded[i].Valid() && forwarded[i].View() == ArrivedViews(vs, true, coins, vacuumMean, vacuumDraws)[i]
    ensures forall i :: 0 <= i < |vs| ==> keys[i] == EavesdropperRole.InterceptKey(vs[i].photons)
  {
    forall i | 0 <= i < |vs|
      ensures forwarded[i].View() == ArrivedViews(vs, true, coins, vacuumMean, vacuumDraws)[i]
    {
      ArrivedAt(vs, coins, vacuumMean, vacuumDraws, i);
    }
  }

  /** The random draws one run consumes: the sender's photon-count
      samples, the eavesdropper's coins and replacement-pulse samples, the
      receiver's draws and its measurement shots. */
  datatype RunDraws = RunDraws(photons: PoissonStream, eveCoins: Stream, eveVacuum: PoissonStream,
                               bobDraws: Stream, bobShots: nat -> Stream)

  class Protocol {
    const numBits: nat
    const useDecoyStates: bool
    const eavesdropper: bool
    const mu: real
    const nu: real
    const darkCountRate: real
    const transmittance: real
    const config: LegacyConfiguration.Config
    const alice: LegacySenderRole.Sender
    const bob: LegacyReceiverRole.Receiver
    const eve: LegacyEavesdropperRole.Eavesdropper?
    var reconciledKey: seq<Outcome>
    var expectedYields: seq<real>
    var signalStateGain: real
    var signalStateEfficiency: Option<real>
    var signalStateYields: seq<Option<real>>
    var decoyStateGain: real
    var decoyStateEfficiency: Option<real>
    var decoyStateYields: seq<Option<real>>

    ghost predicate Valid()
    {
      alice.Valid() && bob.Valid() && alice.numBits == numBits && bob.numBits == numBits &&
      alice.mu == mu && alice.nu == nu && alice.darkCountRate == darkCountRate &&
      (eve != null <==> eavesdropper)
    }

    /** `Protocol(...)`: the shared configuration (kept from an earlier
        construction if there was one), a sender with the protocol's own
        mu, nu and dark count rate, a receiver, and an eavesdropper only
        when asked for. `seeded(s)` is the stream seed `s` produces and
        `entropy` the unseeded generator. */
    constructor (numBits: nat, useDecoyStates: bool, eavesdropper: bool, mu: real, nu: real,
                 darkCountRate: real, transmittance: real, store: LegacyConfiguration.ConfigStore,
                 seeded: int -> Stream, entropy: Stream)
      modifies store
      ensures Valid()
      ensures this.numBits == numBits && this.useDecoyStates == useDecoyStates
      ensures this.eavesdropper == eavesdropper && this.mu == mu && this.nu == nu
      ensures this.darkCountRate == darkCountRate && this.transmittance == transmittance
      ensures config == store.instance
      ensures old(store.instance) != null ==> config == old(store.instance)
      ensures old(store.instance) == null ==>
        config.mu == mu && config.nu == nu && config.darkCountRate == darkCountRate
      ensures fresh(alice) && alice.useDecoyStates == useDecoyStates && alice.states == []
      ensures LegacyRole.Bits(alice.bases) == LegacyRole.RandomSelection(numBits, Some(LegacySenderRole.BasesSeed), seeded, entropy)
      ensures LegacyRole.Bits(alice.originalKey) == LegacyRole.RandomSelection(numBits, Some(LegacySenderRole.KeySeed), seeded, entropy)
      ensures useDecoyStates ==>
        LegacyRole.Labels(alice.intensityTypes) == LegacyRole.RandomSelection(numBits, Some(LegacySenderRole.IntensitySeed), seeded, entropy)
      ensures !useDecoyStates ==> alice.intensityTypes == seq(numBits, _ => "signal")
      ensures fresh(bob) && bob.measurementResults == [] && bob.states == []
      ensures eavesdropper ==>
        fresh(eve) && eve.bases == [] && eve.measurementResults == [] && eve.forwardedStates == [] &&
        eve.extractedQubits == []
      ensures reconciledKey == [] && expectedYields == [] && signalStateYields == [] && decoyStateYields == []
    {
      var c := store.New(mu, nu, darkCountRate);
      this.numBits := numBits;
      this.useDecoyStates := useDecoyStates;
      this.eavesdropper := eavesdropper;
      this.mu := mu;
      this.nu := nu;
      this.darkCountRate := darkCountRate;
      this.transmittance := transmittance;
      config := c;
      alice := new LegacySenderRole.Sender(numBits, mu, nu, darkCountRate, useDecoyStates, seeded, entropy);
      bob := new LegacyReceiverRole.Receiver(numBits, entropy);
      if eavesdropper {
        eve := new LegacyEavesdropperRole.Eavesdropper();
      } else {
        eve := null;
      }
      reconciledKey := [];
      expectedYields := [];
      signalStateGain := 0.0;
      signalStateEfficiency := None;
      signalStateYields := [];
      decoyStateGain := 0.0;
      decoyStateEfficiency := None;
      decoyStateYields := [];
    }

    /** `reconcile_keys`: the receiver's results at the indices where both
        parties chose the same basis, in index order. */
    method ReconcileKeys()
      requires Valid() && |bob.measurementResults| >= numBits
      modifies this`reconciledKey
      ensures reconciledKey == Sift(alice.bases, bob.bases, bob.measurementResults, numBits)
    {
      var reconciled := [];
      var i := 0;
      while i < numBits
        invariant 0 <= i <= numBits
        invariant reconciled == Sift(alice.bases, bob.bases, bob.measurementResults, i)
      {
        if alice.bases[i] == bob.bases[i] {
          reconciled := reconciled + [bob.measurementResults[i]];
        }
        i := i + 1;
      }
      reconciledKey := reconciled;
    }

    /** `detect_eavesdropper`: the expected yields of 1 to 4 photons for the
        transmittance, and for the signal and the decoy class the gain, the
        efficiency it implies (with the class mean of the shared
        configuration) and the yields for that efficiency. */
    method DetectEavesdropper(ln: real -> real)
      requires Valid() && |bob.measurementResults| >= numBits
      modifies this`expectedYields, this`signalStateGain, this`signalStateEfficiency,
               this`signalStateYields, this`decoyStateGain, this`decoyStateEfficiency,
               this`decoyStateYields
      ensures expectedYields == ProtocolRun.Yields(darkCountRate, transmittance, 4)
      ensures signalStateGain ==
        StateGain(alice.intensityTypes, "signal", alice.bases, bob.bases, Lifted(bob.measurementResults))
      ensures signalStateEfficiency == ProtocolRun.StateEfficiency(ln, darkCountRate, signalStateGain, config.mu)
      ensures signalStateYields == ProtocolRun.YieldsOf(darkCountRate, signalStateEfficiency, 4)
      ensures decoyStateGain ==
        StateGain(alice.intensityTypes, "decoy", alice.bases, bob.bases, Lifted(bob.measurementResults))
      ensures decoyStateEfficiency == ProtocolRun.StateEfficiency(ln, darkCountRate, decoyStateGain, config.nu)
      ensures decoyStateYields == ProtocolRun.YieldsOf(darkCountRate, decoyStateEfficiency, 4)
    {
      var results := Lifted(bob.measurementResults);
      expectedYields := ProtocolRun.Yields(darkCountRate, transmittance, 4);
      signalStateGain := StateGain(alice.intensityTypes, "signal", alice.bases, bob.bases, results);
      signalStateEfficiency := ProtocolRun.StateEfficiency(ln, darkCountRate, signalStateGain, config.mu);
      signalStateYields := ProtocolRun.YieldsOf(darkCountRate, signalStateEfficiency, 4);
      decoyStateGain := StateGain(alice.intensityTypes, "decoy", alice.bases, bob.bases, results);
      decoyStateEfficiency := ProtocolRun.StateEfficiency(ln, darkCountRate, decoyStateGain, config.nu);
      decoyStateYields := ProtocolRun.YieldsOf(darkCountRate, decoyStateEfficiency, 4);
    }

    /** `run_protocol` on a fresh protocol object: the sender prepares its
        pulses, the eavesdropper (only when present) intercepts them, the
        receiver measures what arrives, then the keys are sifted and the
        estimates computed. A blocked photon is replaced by a pulse whose
        mean is the configured dark count rate, the mean of a 'vacuum'
        pulse. A second run would hand the receiver the pulses of both
        runs, more than it has bases for. */
    method RunProtocol(d: RunDraws, ln: real -> real)
      requires Valid()
      requires mu >= 0.0 && nu >= 0.0 && darkCountRate >= 0.0 && config.darkCountRate >= 0.0
      requires alice.states == [] && bob.measurementResults == []
      requires eavesdropper ==> eve.measurementResults == [] && eve.forwardedStates == [] && eve.extractedQubits == []
      modifies alice`states, bob`measurementResults, bob`states
      modifies eve
      modifies this`reconciledKey, this`expectedYields, this`signalStateGain, this`signalStateEfficiency,
               this`signalStateYields, this`decoyStateGain, this`decoyStateEfficiency, this`decoyStateYields
      ensures bob.measurementResults ==
        LegacyReceiverRole.MeasureSequence(
          ArrivedViews(SentViews(alice, d.photons), eavesdropper, d.eveCoins, config.darkCountRate, d.eveVacuum),
          bob.bases, d.bobDraws, d.bobShots)
      ensures eavesdropper ==>
        |eve.measurementResults| == numBits &&
        forall i :: 0 <= i < numBits ==>
          eve.measurementResults[i] == EavesdropperRole.InterceptKey(SentViews(alice, d.photons)[i].photons)
      ensures reconciledKey == Sift(alice.bases, bob.bases, bob.measurementResults, numBits)
      ensures expectedYields == ProtocolRun.Yields(darkCountRate, transmittance, 4)
      ensures signalStateGain ==
        StateGain(alice.intensityTypes, "signal", alice.bases, bob.bases, Lifted(bob.measurementResults))
      ensures signalStateEfficiency == ProtocolRun.StateEfficiency(ln, darkCountRate, signalStateGain, config.mu)
      ensures signalStateYields == ProtocolRun.YieldsOf(darkCountRate, signalStateEfficiency, 4)
      ensures decoyStateGain ==
        StateGain(alice.intensityTypes, "decoy", alice.bases, bob.bases, Lifted(bob.measurementResults))
      ensures decoyStateEfficiency == ProtocolRun.StateEfficiency(ln, darkCountRate, decoyStateGain, config.nu)
      ensures decoyStateYields == ProtocolRun.YieldsOf(darkCountRate, decoyStateEfficiency, 4)
    {
      var arrived := Transmit(d);
      Receive(arrived, ArrivedViews(SentViews(alice, d.photons), eavesdropper, d.eveCoins,
                                    config.darkCountRate, d.eveVacuum), d);
      ReconcileKeys();
      DetectEavesdropper(ln);
    }

    /** The first half of `run_protocol`: the sender's pulses, intercepted
        when the eavesdropper is present. */
    method Transmit(d: RunDraws) returns (arrived: seq<LegacyPulse.State>)
      requires Valid()
      requires mu >= 0.0 && nu >= 0.0 && darkCountRate >= 0.0 && config.darkCountRate >= 0.0
      requires alice.states == []
      requires eavesdropper ==> eve.measurementResults == [] && eve.forwardedStates == [] && eve.extractedQubits == []
      modifies alice`states, eve
      ensures |arrived| == numBits
      ensures forall i {:trigger arrived[i]} :: 0 <= i < numBits ==>
        arrived[i].Valid() &&
        arrived[i].View() ==
          ArrivedViews(SentViews(alice, d.photons), eavesdropper, d.eveCoins, config.darkCountRate, d.eveVacuum)[i]
      ensures eavesdropper ==>
        |eve.measurementResults| == numBits &&
        forall i :: 0 <= i < numBits ==>
          eve.measurementResults[i] == EavesdropperRole.InterceptKey(SentViews(alice, d.photons)[i].photons)
    {
      ghost var sentViews := SentViews(alice, d.photons);
      var sent := Send(d.photons);
      if eavesdropper {
        arrived := Intercept(sent, sentViews, d.eveCoins, d.eveVacuum);
      } else {
        arrived := sent;
      }
    }

    /** The sender's part of `run_protocol`: one new pulse per index, as
        the sender's key, bases and labels describe it. */
    method Send(photons: PoissonStream) returns (sent: seq<LegacyPulse.State>)
      requires Valid()
      requires mu >= 0.0 && nu >= 0.0 && darkCountRate >= 0.0
      requires alice.states == []
      modifies alice`states
      ensures |sent| == numBits
      ensures forall i {:trigger sent[i]} :: 0 <= i < numBits ==>
        fresh(sent[i]) && sent[i].Valid() && sent[i].View() == SentViews(alice, photons)[i]
      ensures forall i, j {:trigger sent[i], sent[j]} ::
        0 <= i < numBits && 0 <= j < numBits && i != j ==> sent[i] != sent[j]
    {
      sent := alice.PerformAction(photons);
    }

    /** The eavesdropper's part of `run_protocol`: every pulse goes through
        its interception, and what it forwards is what arrives. */
    method Intercept(sent: seq<LegacyPulse.State>, ghost sentViews: seq<Pulse.PulseView>, coins: Stream,
                     vacuumDraws: PoissonStream)
      returns (arrived: seq<LegacyPulse.State>)
      requires eve != null && config.darkCountRate >= 0.0
      requires eve.measurementResults == [] && eve.forwardedStates == [] && eve.extractedQubits == []
      requires |sent| == |sentViews|
      requires forall i {:trigger sent[i]} :: 0 <= i < |sent| ==>
        sent[i].Valid() && sent[i].View() == sentViews[i]
      requires forall i, j {:trigger sent[i], sent[j]} ::
        0 <= i < |sent| && 0 <= j < |sent| && i != j ==> sent[i] != sent[j]
      modifies eve, sent
      ensures |arrived| == |sent|
      ensures forall i {:trigger arrived[i]} :: 0 <= i < |sent| ==>
        arrived[i].Valid() &&
        arrived[i].View() == ArrivedViews(sentViews, true, coins, config.darkCountRate, vacuumDraws)[i]
      ensures |eve.measurementResults| == |sent| &&
        forall i :: 0 <= i < |sent| ==>
          eve.measurementResults[i] == EavesdropperRole.InterceptKey(sentViews[i].photons)
    {
      ViewsOf(sent, sentViews);
      var dcr := config.darkCountRate;
      arrived := eve.PerformAction(sent, coins, dcr, vacuumDraws);
      assert eve.measurementResults[0..] == eve.measurementResults;
      assert eve.forwardedStates[0..] == arrived;
      ForwardedAsArrived(sentViews, sent, eve.measurementResults, eve.extractedQubits[0..], arrived,
                         coins, dcr, vacuumDraws);
    }

    /** The receiver's part of `run_protocol`: its results are those of
        measuring the arriving pulses. */
    method Receive(arrived: seq<LegacyPulse.State>, ghost arrivedViews: seq<Pulse.PulseView>, d: RunDraws)
      requires Valid() && bob.measurementResults == []
      requires |arrived| == numBits == |arrivedViews|
      requires forall i {:trigger arrived[i]} :: 0 <= i < numBits ==>
        arrived[i].Valid() && arrived[i].View() == arrivedViews[i]
      modifies bob`measurementResults, bob`states
      ensures bob.measurementResults ==
        LegacyReceiverRole.MeasureSequence(arrivedViews, bob.bases, d.bobDraws, d.bobShots)
    {
      var err := bob.PerformAction(arrived, d.bobDraws, d.bobShots);
      assert arrived[..numBits] == arrived;
      forall i | 0 <= i < numBits
        ensures LegacyPulse.Views(arrived)[i] == arrivedViews[i]
      {
        LegacyPulse.ViewsAt(arrived, i);
      }
      assert LegacyPulse.Views(arrived) == arrivedViews;
    }
  }
}
