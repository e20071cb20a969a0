/** The decoy-state BB84 run of the current revision: the shared
    configuration, the sender, an optional photon-number-splitting
    eavesdropper, the receiver, key sifting, and the gain and yield
    estimates used to look for the eavesdropper. */
module ProtocolRun {
  import opened Common
  import opened Configuration
  import opened Role
  import opened Pulse
  import opened SenderRole
  import opened ReceiverRole
  import opened EavesdropperRole
  import opened Sifting

  /** Powers of a number in [0, 1] stay in [0, 1] and never grow. */
  lemma {:induction false} PowInUnit(x: real, n: nat)
    requires 0.0 <= x <= 1.0
    ensures 0.0 <= Pow(x, n + 1) <= Pow(x, n) <= 1.0
  {
    if n > 0 {
      PowInUnit(x, n - 1);
    }
    assert Pow(x, n + 1) == x * Pow(x, n);
    assert x * Pow(x, n) <= 1.0 * Pow(x, n);
  }

  /** `n_photon_state_yield`: the dark-count rate plus the chance that at
      least one of `n` photons gets through a channel of the given
      efficiency. */
  function NPhotonStateYield(darkCountRate: real, efficiency: real, n: nat): (y: real)
    ensures n == 0 ==> y == darkCountRate
    ensures 0.0 <= efficiency <= 1.0 ==> darkCountRate <= y <= darkCountRate + 1.0
  {
    if 0.0 <= efficiency <= 1.0 then PowInUnit(1.0 - efficiency, n); darkCountRate + (1.0 - Pow(1.0 - efficiency, n))
    else darkCountRate + (1.0 - Pow(1.0 - efficiency, n))
  }

  /** For an efficiency in [0, 1] the yield lies between the dark-count
      rate and one more than it, and grows with the number of photons. */
  lemma YieldBounds(darkCountRate: real, efficiency: real, n: nat)
    requires 0.0 <= efficiency <= 1.0
    ensures darkCountRate <= NPhotonStateYield(darkCountRate, efficiency, n)
    ensures NPhotonStateYield(darkCountRate, efficiency, n) <= NPhotonStateYield(darkCountRate, efficiency, n + 1)
    ensures NPhotonStateYield(darkCountRate, efficiency, n + 1) <= darkCountRate + 1.0
  {
    PowInUnit(1.0 - efficiency, n);
  }

  /** A single photon adds exactly the channel efficiency to the dark-count
      rate; an empty pulse adds nothing. */
  lemma SinglePhotonYield(darkCountRate: real, efficiency: real)
    ensures NPhotonStateYield(darkCountRate, efficiency, 1) == darkCountRate + efficiency
    ensures NPhotonStateYield(darkCountRate, efficiency, 0) == darkCountRate
  {
    assert Pow(1.0 - efficiency, 1) == (1.0 - efficiency) * Pow(1.0 - efficiency, 0);
  }

  /** The yields for 1 to `count` photons (`range(1, count + 1)`). */
  function Yields(darkCountRate: real, efficiency: real, count: nat): (ys: seq<real>)
    ensures |ys| == count
    ensures forall k :: 0 <= k < count ==> ys[k] == NPhotonStateYield(darkCountRate, efficiency, k + 1)
    ensures count > 0 ==> ys[0] == darkCountRate + efficiency
  {
    SinglePhotonYield(darkCountRate, efficiency);
    seq(count, k requires 0 <= k < count => NPhotonStateYield(darkCountRate, efficiency, k + 1))
  }

  /** The yields for an efficiency that may be missing. */
  function YieldsOf(darkCountRate: real, efficiency: Option<real>, count: nat): (ys: seq<Option<real>>)
    ensures |ys| == count
    ensures efficiency.None? ==> forall k :: 0 <= k < count ==> ys[k].None?
    ensures efficiency.Some? ==>
      forall k :: 0 <= k < count ==> ys[k] == Some(Yields(darkCountRate, efficiency.value, count)[k])
  {
    seq(count, k requires 0 <= k < count =>
      if efficiency.None? then None else Some(NPhotonStateYield(darkCountRate, efficiency.value, k + 1)))
  }

  function Abs(x: real): real
  {
    if x < 0.0 then -x else x
  }

  /** `state_efficiency`: the gain formula `Q = 1 + Y0 - exp(-eta * mean)`
      solved for eta with the logarithm `ln`. None stands for the
      non-finite value numpy produces when the logarithm's argument or the
      mean is zero. */
  function StateEfficiency(ln: real -> real, darkCountRate: real, gain: real, mean: real): (e: Option<real>)
    ensures e.None? <==> gain == 1.0 + darkCountRate || mean == 0.0
  {
    var a := Abs(1.0 + darkCountRate - gain);
    if a == 0.0 || mean == 0.0 then None else Some(-ln(a) / mean)
  }

  /** The efficiency inverts the gain formula: a gain produced by
      efficiency eta gives eta back, for any logarithm that inverts the
      exponential at that point. */
  lemma EfficiencyInvertsGain(ln: real -> real, exp: real -> real, darkCountRate: real, eta: real,
                              mean: real)
    requires mean != 0.0
    requires exp(-eta * mean) > 0.0 && ln(exp(-eta * mean)) == -eta * mean
    ensures StateEfficiency(ln, darkCountRate, 1.0 + darkCountRate - exp(-eta * mean), mean) == Some(eta)
  {
    var a := exp(-eta * mean);
    assert 1.0 + darkCountRate - (1.0 + darkCountRate - a) == a;
    assert (eta * mean) / mean == eta;
  }

  /** The number of photons the sender puts into a pulse of the given
      class: the Poisson sample for the class mean. A class the
      configuration cannot map, or a negative mean, gives none. */
  function SentPhotons(stateType: string, config: Config, sample: nat): nat
  {
    match StateTypeToMeanPhotonNumber(config, stateType)
    case Err(_) => 0
    case Ok(mean) =>
      match Poisson(mean, sample)
      case Err(_) => 0
      case Ok(n) => n
  }

  /** The pulses as the sender emits them. */
  function SentViews(key: seq<Bit>, bases: seq<Bit>, types: seq<string>, config: Config,
                     photons: PoissonStream): seq<PulseView>
    requires |key| <= |bases| && |key| <= |types|
  {
    seq(|key|, i requires 0 <= i < |key| =>
      PulseView(key[i], bases[i], SentPhotons(types[i], config, photons(i))))
  }

  /** The pulses as they reach the receiver: unchanged on a clean channel,
      and after the eavesdropper's interception (pulse i with the draws
      `coins(2 * i)` and `coins(2 * i + 1)`) otherwise. */
  function ArrivedViews(sent: seq<PulseView>, eavesdropper: bool, coins: Stream): (arrived: seq<PulseView>)
    ensures |arrived| == |sent|
  {
    if eavesdropper then
      seq(|sent|, i requires 0 <= i < |sent| => ForwardView(sent[i], coins(2 * i), coins(2 * i + 1)))
    else sent
  }

  /** The receiver's result list after it measures the given pulses. */
  function Results(vs: seq<PulseView>, bases: seq<Bit>, detector: Detector, draws: Stream): (r: seq<Option<Outcome>>)
    requires |vs| <= |bases|
    ensures |r| == |vs|
  {
    seq(|vs|, i requires 0 <= i < |vs| => Some(MeasureSequence(vs, bases, detector, draws)[i]))
  }

  /** On a clean channel every sifted entry is a measured result, never a
      wrong basis: sifting keeps only indices where the receiver's basis is
      the pulse's basis. */
  lemma HonestSiftHasNoWrongBasis(sent: seq<PulseView>, aBases: seq<Bit>, bBases: seq<Bit>,
                                  detector: Detector, draws: Stream)
    requires |sent| <= |aBases| && |sent| <= |bBases|
    requires forall i :: 0 <= i < |sent| ==> sent[i].basis == aBases[i]
    ensures forall x :: x in Sift(aBases, bBases, Results(sent, bBases, detector, draws), |sent|) ==>
      x.Some? && x.value != WrongBasis
  {
    var results := Results(sent, bBases, detector, draws);
    forall i | 0 <= i < |sent| && aBases[i] == bBases[i]
      ensures results[i].Some? && results[i].value != WrongBasis
    {
      WrongBasisExactly(sent, bBases, detector, draws, i);
    }
    SiftKeeps(aBases, bBases, results, |sent|, (x: Option<Outcome>) => x.Some? && x.value != WrongBasis);
  }

  /** On a clean channel with an ideal detector, the sifted key entry for
      every non-empty pulse is the sender's bit. */
  lemma HonestIdealSiftIsKey(sent: seq<PulseView>, aBases: seq<Bit>, bBases: seq<Bit>,
                             detector: Detector, draws: Stream)
    requires |sent| <= |aBases| && |sent| <= |bBases|
    requires forall i :: 0 <= i < |sent| ==> sent[i].basis == aBases[i]
    requires detector.efficiency >= 1.0 && detector.errorRate <= 0.0 && detector.darkCountRate <= 0.0
    requires forall j :: 0.0 <= draws(j) < 1.0
    ensures |Sift(aBases, bBases, Results(sent, bBases, detector, draws), |sent|)|
         == |MatchingIndices(aBases, bBases, |sent|)|
    ensures var idx := MatchingIndices(aBases, bBases, |sent|);
      forall k :: 0 <= k < |idx| && sent[idx[k]].photons > 0 ==>
        Sift(aBases, bBases, Results(sent, bBases, detector, draws), |sent|)[k] == Some(Bit(sent[idx[k]].bit))
  {
    var idx := MatchingIndices(aBases, bBases, |sent|);
    var results := Results(sent, bBases, detector, draws);
    SiftSelectsMatches(aBases, bBases, results, |sent|);
    forall k | 0 <= k < |idx| && sent[idx[k]].photons > 0
      ensures Sift(aBases, bBases, results, |sent|)[k] == Some(Bit(sent[idx[k]].bit))
    {
      IdealReceiverGetsBit(sent, bBases, detector, draws, idx[k]);
    }
  }

  /** The photon-number-splitting attack goes unseen on multi-photon
      pulses: with an ideal detector the receiver gets the sender's bit in
      the sender's basis whether or not the eavesdropper is present. */
  lemma SplittingUnseenOnMultiPhotonPulses(sent: seq<PulseView>, coins: Stream, bBases: seq<Bit>,
                                           detector: Detector, draws: Stream, i: nat)
    requires i < |sent| <= |bBases|
    requires sent[i].photons > 1 && bBases[i] == sent[i].basis
    requires detector.efficiency >= 1.0 && detector.errorRate <= 0.0 && detector.darkCountRate <= 0.0
    requires forall j :: 0.0 <= draws(j) < 1.0
    ensures Results(ArrivedViews(sent, true, coins), bBases, detector, draws)[i] == Some(Bit(sent[i].bit))
    ensures Results(ArrivedViews(sent, false, coins), bBases, detector, draws)[i] == Some(Bit(sent[i].bit))
  {
    var arrived := ArrivedViews(sent, true, coins);
    assert arrived[i] == ForwardView(sent[i], coins(2 * i), coins(2 * i + 1));
    assert arrived[i] == Remaining(sent[i]);
    IdealReceiverGetsBit(arrived, bBases, detector, draws, i);
    IdealReceiverGetsBit(sent, bBases, detector, draws, i);
  }

  /** A single-photon pulse the eavesdropper blocks reaches the receiver as
      an empty pulse in a random basis: without dark counts it yields no
      detection when the bases agree and a wrong basis otherwise. */
  lemma BlockedPulseNeverDelivers(sent: seq<PulseView>, coins: Stream, bBases: seq<Bit>,
                                  detector: Detector, draws: Stream, i: nat)
    requires i < |sent| <= |bBases|
    requires sent[i].photons == 1
    requires detector.darkCountRate <= 0.0 && forall j :: 0.0 <= draws(j)
    ensures Results(ArrivedViews(sent, true, coins), bBases, detector, draws)[i] ==
      Some(if bBases[i] == CoinOf(coins(2 * i + 1)) then NoDetection else WrongBasis)
  {
    var arrived := ArrivedViews(sent, true, coins);
    assert arrived[i] == ForwardView(sent[i], coins(2 * i), coins(2 * i + 1));
    MeasureFirstAt(arrived, bBases, detector, draws, |arrived|, i);
    var pos := MeasureFirst(arrived, bBases, detector, draws, i).next;
    assert arrived[i] == PulseView(CoinOf(coins(2 * i)), CoinOf(coins(2 * i + 1)), 0);
    var m := Measurement(arrived[i], bBases[i], detector, draws, pos);
    if bBases[i] == arrived[i].basis {
      assert m == DarkCount(detector, draws, pos);
      assert !(draws(pos) < detector.darkCountRate);
      assert m.outcome == NoDetection;
    }
    assert MeasureSequence(arrived, bBases, detector, draws)[i] == m.outcome;
  }

  /** `state_gain` counts a blocked pulse as detected when the forged basis
      differs from the receiver's although the sender's agrees: its 'Wrong
      basis' result is not 'No detection'. */
  lemma BlockedPulseCountsAsDetected(sent: seq<PulseView>, coins: Stream, aBases: seq<Bit>,
                                     bBases: seq<Bit>, detector: Detector, draws: Stream, i: nat)
    requires i < |sent| <= |bBases| && |sent| <= |aBases|
    requires sent[i].photons == 1 && aBases[i] == bBases[i] && bBases[i] != CoinOf(coins(2 * i + 1))
    ensures Detected(aBases, bBases, Results(ArrivedViews(sent, true, coins), bBases, detector, draws), i)
  {
    var arrived := ArrivedViews(sent, true, coins);
    assert arrived[i] == ForwardView(sent[i], coins(2 * i), coins(2 * i + 1));
    WrongBasisExactly(arrived, bBases, detector, draws, i);
  }

  /** The random draws a protocol object consumes when it is built. */
  datatype SetupDraws = SetupDraws(aliceKey: Stream, aliceBases: Stream, aliceTypes: Stream, bobBases: Stream)

  /** The random draws one run consumes: the photon-count samples, the
      eavesdropper's draws, the receiver's detector draws and the
      measurement shots. */
  datatype RunDraws = RunDraws(photons: PoissonStream, eveCoins: Stream, bobDraws: Stream,
                               bobShots: nat -> Stream)

  class Protocol {
    const numBits: nat
    const useDecoyStates: bool
    const eavesdropper: bool
    const mu: real
    const nu: real
    const darkCountRate: real
    const transmittance: real
    const detectorEfficiency: real
    const config: Config
    const alice: Sender
    const bob: Receiver
    const eve: Eavesdropper?
    var reconciledKey: seq<Option<Outcome>>
    var expectedYields: seq<real>
    var signalStateGain: real
    var signalStateEfficiency: Option<real>
    var signalStateYields: seq<Option<real>>
    var decoyStateGain: real
    var decoyStateEfficiency: Option<real>
    var decoyStateYields: seq<Option<real>>

    ghost predicate Valid()
      reads this, bob
    {
      alice.Valid() && bob.Valid() && alice.numBits == numBits && bob.numBits == numBits &&
      (eve != null <==> eavesdropper)
    }

    /** The receiver's detector: the configured dark-count and error rates
        with the protocol's detector efficiency. */
    function BobDetector(): (d: Detector)
      reads this, config
      ensures d.efficiency == detectorEfficiency
      ensures d.darkCountRate == config.darkCountRate && d.errorRate == config.detectorErrorRate
    {
      Detector(config.darkCountRate, detectorEfficiency, config.detectorErrorRate)
    }

    /** `Protocol(...)`: the transmittance from the channel and receiver
        losses in dB (`tenTo(x)` is `10 ** x`), the shared configuration
        (kept from an earlier construction if there was one), the sender,
        the receiver, and an eavesdropper only when asked for. The result
        attributes start empty. */
    constructor (numBits: nat, useDecoyStates: bool, eavesdropper: bool, mu: real, nu: real,
                 darkCountRate: real, channelLoss: real, channelLength: real, receiverLoss: real,
                 detectorEfficiency: real, detectorErrorRate: real, signalPercentage: real,
                 decoyPercentage: real, vacuumPercentage: real, tenTo: real -> real,
                 store: ConfigStore, draws: SetupDraws)
      modifies store
      ensures Valid()
      ensures this.numBits == numBits && this.useDecoyStates == useDecoyStates
      ensures this.eavesdropper == eavesdropper && this.mu == mu && this.nu == nu
      ensures this.darkCountRate == darkCountRate && this.detectorEfficiency == detectorEfficiency
      ensures transmittance ==
        tenTo(-(channelLoss * channelLength) / 10.0) * (tenTo(-receiverLoss / 10.0) * detectorEfficiency)
      ensures config == store.instance
      ensures old(store.instance) != null ==> config == old(store.instance)
      ensures old(store.instance) == null ==>
        config.mu == mu && config.nu == nu && config.transmittance == transmittance &&
        config.detectorErrorRate == detectorErrorRate && config.darkCountRate == darkCountRate &&
        config.signalPercentage == signalPercentage && config.decoyPercentage == decoyPercentage &&
        config.vacuumPercentage == vacuumPercentage
      ensures alice.key == RandomBitSelection(numBits, draws.aliceKey)
      ensures alice.bases == RandomBitSelection(numBits, draws.aliceBases)
      ensures alice.statesTypes ==
        StateSelection(numBits, config.signalPercentage, config.decoyPercentage, draws.aliceTypes)
      ensures fresh(alice) && fresh(alice.states)
      ensures fresh(bob) && bob.bases == RandomBitSelection(numBits, draws.bobBases)
      ensures bob.key == seq(numBits, _ => None) && bob.states == seq(numBits, _ => null)
      ensures eavesdropper ==>
        fresh(eve) && eve.bases.None? && eve.key.None? && eve.forwardedStates.None? &&
        eve.extractedQubits.None?
      ensures reconciledKey == [] && expectedYields == [] && signalStateYields == [] && decoyStateYields == []
    {
      var t := tenTo(-(channelLoss * channelLength) / 10.0) * (tenTo(-receiverLoss / 10.0) * detectorEfficiency);
      var c := store.New(mu, nu, t, detectorErrorRate, darkCountRate, signalPercentage, decoyPercentage,
                         vacuumPercentage);
      this.numBits := numBits;
      this.useDecoyStates := useDecoyStates;
      this.eavesdropper := eavesdropper;
      this.mu := mu;
      this.nu := nu;
      this.darkCountRate := darkCountRate;
      this.detectorEfficiency := detectorEfficiency;
      transmittance := t;
      config := c;
      alice := new Sender(numBits, c, draws.aliceKey, draws.aliceBases, draws.aliceTypes);
      bob := new Receiver(numBits, draws.bobBases);
      if eavesdropper {
        eve := new Eavesdropper();
      } else {
        eve := null;
      }
      reconciledKey := [];
      expectedYields := [];
      signalStateGain := 0.0;
      signalStateEfficiency := None;
      signalStateYields := [];
      decoyStateGain := 0.0;
      decoyStateEfficiency := None;
      decoyStateYields := [];
    }

    /** `reconcile_keys`: the receiver's results at the indices where both
        parties chose the same basis, in index order. */
    method ReconcileKeys()
      requires Valid()
      modifies this`reconciledKey
      ensures reconciledKey == Sift(alice.bases, bob.bases, bob.key, numBits)
    {
      var reconciled := [];
      var i := 0;
      while i < numBits
        invariant 0 <= i <= numBits
        invariant reconciled == Sift(alice.bases, bob.bases, bob.key, i)
      {
        if alice.bases[i] == bob.bases[i] {
          reconciled := reconciled + [bob.key[i]];
        }
        i := i + 1;
      }
      reconciledKey := reconciled;
    }

    /** `detect_eavesdropper`: the expected yields of 1 to 5 photons for the
        channel transmittance, and for the signal and the decoy class the
        gain, the efficiency it implies (with the class mean of the shared
        configuration) and the yields for that efficiency. */
    method DetectEavesdropper(ln: real -> real)
      requires Valid()
      modifies this`expectedYields, this`signalStateGain, this`signalStateEfficiency,
               this`signalStateYields, this`decoyStateGain, this`decoyStateEfficiency,
               this`decoyStateYields
      ensures expectedYields == Yields(darkCountRate, transmittance, 5)
      ensures signalStateGain == StateGain(alice.statesTypes, "signal", alice.bases, bob.bases, bob.key)
      ensures signalStateEfficiency == StateEfficiency(ln, darkCountRate, signalStateGain, config.mu)
      ensures signalStateYields == YieldsOf(darkCountRate, signalStateEfficiency, 5)
      ensures decoyStateGain == StateGain(alice.statesTypes, "decoy", alice.bases, bob.bases, bob.key)
      ensures decoyStateEfficiency == StateEfficiency(ln, darkCountRate, decoyStateGain, config.nu)
      ensures decoyStateYields == YieldsOf(darkCountRate, decoyStateEfficiency, 5)
    {
      expectedYields := Yields(darkCountRate, transmittance, 5);
      signalStateGain := StateGain(alice.statesTypes, "signal", alice.bases, bob.bases, bob.key);
      signalStateEfficiency := StateEfficiency(ln, darkCountRate, signalStateGain, config.mu);
      signalStateYields := YieldsOf(darkCountRate, signalStateEfficiency, 5);
      decoyStateGain := StateGain(alice.statesTypes, "decoy", alice.bases, bob.bases, bob.key);
      decoyStateEfficiency := StateEfficiency(ln, darkCountRate, decoyStateGain, config.nu);
      decoyStateYields := YieldsOf(darkCountRate, decoyStateEfficiency, 5);
    }

    /** `run_protocol`: the sender prepares its pulses, the eavesdropper
        (only when present) intercepts them, the receiver measures what
        arrives, then the keys are sifted and the estimates computed. The
        receiver's results are those of measuring the sender's pulses as
        they arrive. */
    method RunProtocol(d: RunDraws, ln: real -> real)
      requires Valid()
      requires config.mu >= 0.0 && config.nu >= 0.0
      modifies alice.states, bob`key, bob`states, eve
      modifies this`reconciledKey, this`expectedYields, this`signalStateGain, this`signalStateEfficiency,
               this`signalStateYields, this`decoyStateGain, this`decoyStateEfficiency, this`decoyStateYields
      ensures Valid()
      ensures bob.key ==
        Results(ArrivedViews(SentViews(alice.key, alice.bases, alice.statesTypes, config, d.photons),
                             eavesdropper, d.eveCoins),
                bob.bases, BobDetector(), d.bobDraws)
      ensures eavesdropper ==>
        eve.key.Some? && |eve.key.value| == numBits &&
        forall i :: 0 <= i < numBits ==>
          eve.key.value[i] ==
            InterceptKey(SentViews(alice.key, alice.bases, alice.statesTypes, config, d.photons)[i].photons)
      ensures reconciledKey == Sift(alice.bases, bob.bases, bob.key, numBits)
      ensures expectedYields == Yields(darkCountRate, transmittance, 5)
      ensures signalStateGain == StateGain(alice.statesTypes, "signal", alice.bases, bob.bases, bob.key)
      ensures signalStateEfficiency == StateEfficiency(ln, darkCountRate, signalStateGain, config.mu)
      ensures signalStateYields == YieldsOf(darkCountRate, signalStateEfficiency, 5)
      ensures decoyStateGain == StateGain(alice.statesTypes, "decoy", alice.bases, bob.bases, bob.key)
      ensures decoyStateEfficiency == StateEfficiency(ln, darkCountRate, decoyStateGain, config.nu)
      ensures decoyStateYields == YieldsOf(darkCountRate, decoyStateEfficiency, 5)
    {
      var arrived := Transmit(d);
      Receive(arrived, ArrivedViews(SentViews(alice.key, alice.bases, alice.statesTypes, config, d.photons),
                                    eavesdropper, d.eveCoins), d);
      ReconcileKeys();
      DetectEavesdropper(ln);
    }

    /** The first half of `run_protocol`: the sender's pulses, intercepted
        when the eavesdropper is present. */
    method Transmit(d: RunDraws) returns (arrived: seq<State>)
      requires Valid()
      requires config.mu >= 0.0 && config.nu >= 0.0
      modifies alice.states, eve
      ensures |arrived| == numBits
      ensures forall i {:trigger arrived[i]} :: 0 <= i < numBits ==>
        arrived[i].Valid() &&
        arrived[i].View() ==
          ArrivedViews(SentViews(alice.key, alice.bases, alice.statesTypes, config, d.photons),
                       eavesdropper, d.eveCoins)[i]
      ensures eavesdropper ==>
        eve.key.Some? && |eve.key.value| == numBits &&
        forall i :: 0 <= i < numBits ==>
          eve.key.value[i] ==
            InterceptKey(SentViews(alice.key, alice.bases, alice.statesTypes, config, d.photons)[i].photons)
    {
      ghost var sentViews := SentViews(alice.key, alice.bases, alice.statesTypes, config, d.photons);
      var sent := Send(d.photons);
      if eavesdropper {
        arrived := Intercept(sent, sentViews, d.eveCoins);
      } else {
        arrived := sent;
      }
    }

    /** The eavesdropper's part of `run_protocol`: every pulse goes through
        its interception, and what it forwards is what arrives. */
    method Intercept(sent: seq<State>, ghost sentViews: seq<PulseView>, coins: Stream)
      returns (arrived: seq<State>)
      requires eve != null
      requires |sent| == |sentViews|
      requires forall i {:trigger sent[i]} :: 0 <= i < |sent| ==>
        sent[i].Valid() && sent[i].View() == sentViews[i]
      requires forall i, j {:trigger sent[i], sent[j]} ::
        0 <= i < |sent| && 0 <= j < |sent| && i != j ==> sent[i] != sent[j]
      modifies eve, sent
      ensures |arrived| == |sent|
      ensures forall i {:trigger arrived[i]} :: 0 <= i < |sent| ==>
        arrived[i].Valid() && arrived[i].View() == ArrivedViews(sentViews, true, coins)[i]
      ensures eve.key.Some? && |eve.key.value| == |sent| &&
        forall i :: 0 <= i < |sent| ==> eve.key.value[i] == InterceptKey(sentViews[i].photons)
    {
      ghost var av := ArrivedViews(sentViews, true, coins);
      assert forall i :: 0 <= i < |sent| ==> av[i] == ForwardView(sentViews[i], coins(2 * i), coins(2 * i + 1));
      arrived := eve.PerformAction(sent, config, coins);
    }

    /** The sender's part of `run_protocol`: one new pulse per index, as
        the sender's key, bases and classes describe it. */
    method Send(photons: PoissonStream) returns (sent: seq<State>)
      requires Valid()
      requires config.mu >= 0.0 && config.nu >= 0.0
      modifies alice.states
      ensures |sent| == numBits
      ensures forall i {:trigger sent[i]} :: 0 <= i < numBits ==>
        fresh(sent[i]) && sent[i].Valid() &&
        sent[i].View() == SentViews(alice.key, alice.bases, alice.statesTypes, config, photons)[i]
      ensures forall i, j {:trigger sent[i], sent[j]} ::
        0 <= i < numBits && 0 <= j < numBits && i != j ==> sent[i] != sent[j]
    {
      var pulses := alice.PerformAction(config, photons);
      sent := Collect(pulses);
    }

    /** The receiver's part of `run_protocol`: its results are those of
        measuring the arriving pulses. */
    method Receive(arrived: seq<State>, ghost arrivedViews: seq<PulseView>, d: RunDraws)
      requires Valid()
      requires |arrived| == numBits == |arrivedViews|
      requires forall i {:trigger arrived[i]} :: 0 <= i < numBits ==>
        arrived[i].Valid() && arrived[i].View() == arrivedViews[i]
      modifies bob`key, bob`states
      ensures Valid()
      ensures bob.key == Results(arrivedViews, bob.bases, BobDetector(), d.bobDraws)
    {
      bob.PerformAction(arrived, BobDetector(), d.bobDraws, d.bobShots);
      forall i | 0 <= i < numBits
        ensures Views(arrived)[i] == arrivedViews[i]
      {
        ViewsAt(arrived, i);
      }
      assert Views(arrived) == arrivedViews;
    }
  }

  /** The filled pulse array as a list of pulses. */
  method Collect(pulses: array<State?>) returns (s: seq<State>)
    requires forall i :: 0 <= i < pulses.Length ==> pulses[i] != null
    ensures |s| == pulses.Length && forall i :: 0 <= i < pulses.Length ==> s[i] == pulses[i]
  {
    s := [];
    var i := 0;
    while i < pulses.Length
      invariant 0 <= i <= pulses.Length
      invariant |s| == i && forall j :: 0 <= j < i ==> s[j] == pulses[j]
    {
      var p: State := pulses[i];
      s := s + [p];
      i := i + 1;
    }
  }
}
