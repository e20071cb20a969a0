/** The helpers every role of the current revision inherits: the abstract
    action, uniform bit lists and the three-interval intensity classifier.
    Each call reseeds the generator; here the stream that seed produces is
    passed in, so equal seeds are equal streams. */
module Role {
  import opened Common
  import opened Configuration

  /** The base `perform_action`: every role must override it. */
  function PerformAction(): (r: Result<()>)
    ensures r.Err? && r.error.NotImplementedError?
  {
    Err(NotImplementedError)
  }

  function CoinAt(draws: Stream, i: nat): Bit
  {
    CoinOf(draws(i))
  }

  /** `random_bit_selection`: one fair choice of 0 or 1 per element. */
  function RandomBitSelection(numElements: nat, draws: Stream): (bits: seq<Bit>)
    ensures |bits| == numElements
    ensures forall i :: 0 <= i < numElements ==> bits[i] == CoinOf(draws(i))
  {
    seq(numElements, i requires 0 <= i < numElements => CoinAt(draws, i))
  }

  /** One draw classified by the three intervals [0, s), [s, s + d) and
      the rest. The vacuum percentage plays no part. */
  function Classify(r: real, signalPercentage: real, decoyPercentage: real): (t: string)
    ensures IsStateType(t)
    ensures t == "signal" <==> r < signalPercentage
    ensures t == "decoy" <==> signalPercentage <= r < signalPercentage + decoyPercentage
    ensures t == "vacuum" <==> signalPercentage <= r && signalPercentage + decoyPercentage <= r
  {
    if r < signalPercentage then "signal"
    else if r < signalPercentage + decoyPercentage then "decoy"
    else "vacuum"
  }

  function ClassifyAt(draws: Stream, i: nat, signalPercentage: real, decoyPercentage: real): string
  {
    Classify(draws(i), signalPercentage, decoyPercentage)
  }

  /** The labels `random_state_selection` produces from a stream. */
  function StateSelection(numElements: nat, signalPercentage: real, decoyPercentage: real,
                          draws: Stream): (types: seq<string>)
    ensures |types| == numElements
    ensures forall i :: 0 <= i < numElements ==>
      types[i] == Classify(draws(i), signalPercentage, decoyPercentage)
  {
    seq(numElements, i requires 0 <= i < numElements =>
          ClassifyAt(draws, i, signalPercentage, decoyPercentage))
  }

  /** `random_state_selection`: reads the two percentages from the
      configuration instance (failing when there is none) and classifies
      one draw per element, appending the label. */
  method RandomStateSelection(numElements: nat, config: Config?, draws: Stream)
    returns (r: Result<seq<string>>)
    ensures config == null ==> r == Err(AttributeError)
    ensures config != null ==>
      r.Ok? && |r.value| == numElements &&
      forall i :: 0 <= i < numElements ==>
        IsStateType(r.value[i]) &&
        (r.value[i] == "signal" <==> draws(i) < config.signalPercentage) &&
        (r.value[i] == "decoy" <==>
           config.signalPercentage <= draws(i) < config.signalPercentage + config.decoyPercentage)
  {
    if config == null {
      return Err(AttributeError);
    }
    var signalPercentage := config.signalPercentage;
    var decoyPercentage := config.decoyPercentage;
    var statesTypes: seq<string> := [];
    var k := 0;
    while k < numElements
      invariant 0 <= k <= numElements
      invariant statesTypes == StateSelection(k, signalPercentage, decoyPercentage, draws)
    {
      var randVal := draws(k);
      if randVal < signalPercentage {
        statesTypes := statesTypes + ["signal"];
      } else if randVal < signalPercentage + decoyPercentage {
        statesTypes := statesTypes + ["decoy"];
      } else {
        statesTypes := statesTypes + ["vacuum"];
      }
      k := k + 1;
    }
    r := Ok(statesTypes);
  }

  /** Reseeding with the same seed reproduces the list: the labels depend
      only on the first `numElements` draws. */
  lemma SameDrawsSameStates(numElements: nat, signalPercentage: real, decoyPercentage: real,
                            d1: Stream, d2: Stream)
    requires forall i :: 0 <= i < numElements ==> d1(i) == d2(i)
    ensures StateSelection(numElements, signalPercentage, decoyPercentage, d1)
         == StateSelection(numElements, signalPercentage, decoyPercentage, d2)
  {
    var a := StateSelection(numElements, signalPercentage, decoyPercentage, d1);
    var b := StateSelection(numElements, signalPercentage, decoyPercentage, d2);
    forall i | 0 <= i < numElements ensures a[i] == b[i] {
      assert d1(i) == d2(i);
    }
  }

  /** The same holds for bit lists. */
  lemma SameDrawsSameBits(numElements: nat, d1: Stream, d2: Stream)
    requires forall i :: 0 <= i < numElements ==> d1(i) == d2(i)
    ensures RandomBitSelection(numElements, d1) == RandomBitSelection(numElements, d2)
  {
    var a := RandomBitSelection(numElements, d1);
    var b := RandomBitSelection(numElements, d2);
    forall i | 0 <= i < numElements ensures a[i] == b[i] {
      assert d1(i) == d2(i);
    }
  }
}
