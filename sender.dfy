/** The sender of the current revision: a random key, random bases and
    random intensity classes chosen at construction, and an array filled
    with one prepared pulse per index. */
module SenderRole {
  import opened Common
  import opened Configuration
  import opened Role
  import opened Pulse

  class Sender {
    const numBits: nat
    const key: seq<Bit>
    const bases: seq<Bit>
    const statesTypes: seq<string>
    const states: array<State?>

    ghost predicate Valid()
    {
      |key| == numBits && |bases| == numBits && |statesTypes| == numBits &&
      states.Length == numBits &&
      forall i :: 0 <= i < numBits ==> IsStateType(statesTypes[i])
    }

    /** `Sender(num_bits)`: the key and the bases are fair bit lists and the
        classes come from the three-interval classifier, each from its own
        freshly seeded stream; the pulse array is empty. */
    constructor (numBits: nat, config: Config, keyDraws: Stream, basisDraws: Stream,
                 typeDraws: Stream)
      ensures Valid() && this.numBits == numBits
      ensures key == RandomBitSelection(numBits, keyDraws)
      ensures bases == RandomBitSelection(numBits, basisDraws)
      ensures statesTypes == StateSelection(numBits, config.signalPercentage, config.decoyPercentage, typeDraws)
      ensures fresh(states) && forall i :: 0 <= i < numBits ==> states[i] == null
    {
      var types := RandomStateSelection(numBits, config, typeDraws);
      this.numBits := numBits;
      key := RandomBitSelection(numBits, keyDraws);
      bases := RandomBitSelection(numBits, basisDraws);
      statesTypes := types.value;
      states := new State?[numBits](_ => null);
    }

    /** `perform_action`: slot i receives a new pulse with key bit i, basis i
        and the mean of class i, its photon count drawn from `photons(i)`;
        the array itself is returned. */
    method PerformAction(config: Config, photons: PoissonStream) returns (r: array<State?>)
      requires Valid()
      requires config.mu >= 0.0 && config.nu >= 0.0
      modifies states
      ensures r == states
      ensures forall i :: 0 <= i < numBits ==>
        states[i] != null && fresh(states[i]) && states[i].Valid() &&
        states[i].bitValue == key[i] && states[i].basis == bases[i] &&
        Ok(states[i].meanPhotonNumber) == StateTypeToMeanPhotonNumber(config, statesTypes[i]) &&
        Ok(states[i].numQubits) == Poisson(states[i].meanPhotonNumber, photons(i))
      ensures forall i, j :: 0 <= i < j < numBits ==> states[i] != states[j]
    {
      var i := 0;
      while i < numBits
        invariant 0 <= i <= numBits
        invariant forall k :: 0 <= k < i ==>
          states[k] != null && fresh(states[k]) && states[k].Valid() &&
          states[k].bitValue == key[k] && states[k].basis == bases[k] &&
          Ok(states[k].meanPhotonNumber) == StateTypeToMeanPhotonNumber(config, statesTypes[k]) &&
          Ok(states[k].numQubits) == Poisson(states[k].meanPhotonNumber, photons(k))
        invariant forall k, j :: 0 <= k < j < i ==> states[k] != states[j]
      {
        var s := NewState(key[i], bases[i], statesTypes[i], config, photons(i));
        states[i] := s.value;
        i := i + 1;
      }
      r := states;
    }
  }
}
