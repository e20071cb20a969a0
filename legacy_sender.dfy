/** The sender of the earlier revision: its own copies of mu, nu and the
    dark count rate, bases and key from fixed seeds, intensity labels from
    a third seed only when decoy states are used, and a pulse list that
    every call extends. */
module LegacySenderRole {
  import opened Common
  import opened Configuration
  import opened Role
  import opened LegacyRole
  import LegacyConfiguration
  import opened LegacyPulse

  /** The seeds the constructor passes to `random_selection`. */
  const BasesSeed: int := 12
  const KeySeed: int := 14
  const IntensitySeed: int := 52

  class Sender {
    const numBits: nat
    const useDecoyStates: bool
    const mu: real
    const nu: real
    const darkCountRate: real
    const bases: seq<Bit>
    const originalKey: seq<Bit>
    const intensityTypes: seq<string>
    var states: seq<State>

    ghost predicate Valid()
    {
      |bases| == numBits && |originalKey| == numBits && |intensityTypes| == numBits
    }

    /** `Sender(num_bits, mu, nu, dark_count_rate, use_decoy_states)`: bases
        from seed 12 and the key from seed 14 (both bit lists), labels from
        seed 52 when decoy states are used and all 'signal' otherwise, and
        no pulses yet. `seeded(s)` is the stream seed `s` produces. */
    constructor (numBits: nat, mu: real, nu: real, darkCountRate: real, useDecoyStates: bool,
                 seeded: int -> Stream, entropy: Stream)
      ensures Valid()
      ensures this.numBits == numBits && this.useDecoyStates == useDecoyStates
      ensures this.mu == mu && this.nu == nu && this.darkCountRate == darkCountRate
      ensures Bits(bases) == RandomSelection(numBits, Some(BasesSeed), seeded, entropy)
      ensures Bits(originalKey) == RandomSelection(numBits, Some(KeySeed), seeded, entropy)
      ensures useDecoyStates ==>
        Labels(intensityTypes) == RandomSelection(numBits, Some(IntensitySeed), seeded, entropy)
      ensures !useDecoyStates ==> intensityTypes == seq(numBits, _ => "signal")
      ensures states == []
    {
      this.numBits := numBits;
      this.useDecoyStates := useDecoyStates;
      this.mu := mu;
      this.nu := nu;
      this.darkCountRate := darkCountRate;
      bases := RandomSelection(numBits, Some(BasesSeed), seeded, entropy).bits;
      originalKey := RandomSelection(numBits, Some(KeySeed), seeded, entropy).bits;
      intensityTypes := if useDecoyStates then RandomSelection(numBits, Some(IntensitySeed), seeded, entropy).labels
                        else seq(numBits, _ => "signal");
      states := [];
    }

    /** `intensity_type_to_mean_photon_number`: mu for 'signal', nu for
        'decoy', and the dark count rate for any other label. */
    function IntensityTypeToMeanPhotonNumber(intensityType: string): (mean: real)
      ensures mu >= 0.0 && nu >= 0.0 && darkCountRate >= 0.0 ==> mean >= 0.0
      ensures intensityType != "signal" && intensityType != "decoy" ==> mean == darkCountRate
    {
      if intensityType == "signal" then mu
      else if intensityType == "decoy" then nu
      else darkCountRate
    }

    /** `perform_action`: one new pulse per index is appended, with key bit
        i, basis i and the mean of label i, its photon count drawn from
        `photons(i)`; the whole accumulated list is returned. */
    method PerformAction(photons: PoissonStream) returns (r: seq<State>)
      requires Valid()
      requires mu >= 0.0 && nu >= 0.0 && darkCountRate >= 0.0
      modifies this`states
      ensures r == states
      ensures |states| == |old(states)| + numBits && states[..|old(states)|] == old(states)
      ensures forall j :: |old(states)| <= j < |states| ==>
        var s, i := states[j], j - |old(states)|;
        fresh(s) && s.Valid() && s.bitValue == originalKey[i] && s.basis == bases[i] &&
        s.meanPhotonNumber == IntensityTypeToMeanPhotonNumber(intensityTypes[i]) &&
        Ok(s.numQubits) == Poisson(s.meanPhotonNumber, photons(i))
      ensures forall i, j {:trigger states[i], states[j]} ::
        |old(states)| <= i < |states| && |old(states)| <= j < |states| && i != j ==> states[i] != states[j]
    {
      ghost var n0 := |states|;
      var i := 0;
      while i < numBits
        invariant 0 <= i <= numBits
        invariant |states| == n0 + i && states[..n0] == old(states)
        invariant forall j :: n0 <= j < |states| ==>
          var s, k := states[j], j - n0;
          fresh(s) && s.Valid() && s.bitValue == originalKey[k] && s.basis == bases[k] &&
          s.meanPhotonNumber == IntensityTypeToMeanPhotonNumber(intensityTypes[k]) &&
          Ok(s.numQubits) == Poisson(s.meanPhotonNumber, photons(k))
        invariant forall k, l {:trigger states[k], states[l]} ::
          n0 <= k < |states| && n0 <= l < |states| && k != l ==> states[k] != states[l]
      {
        var meanPhotonNumber := IntensityTypeToMeanPhotonNumber(intensityTypes[i]);
        var state := NewState(originalKey[i], bases[i], meanPhotonNumber, photons(i));
        states := states + [state.value];
        i := i + 1;
      }
      r := states;
    }
  }

  /** The sender's own mapping agrees with the configuration's on the three
      class labels when both hold the same parameters; on any other label
      the sender falls back to the dark count rate where the configuration
      raises ValueError. */
  lemma SenderMappingMatchesConfig(sender: Sender, config: LegacyConfiguration.Config, stateType: string)
    requires config.mu == sender.mu && config.nu == sender.nu && config.darkCountRate == sender.darkCountRate
    ensures IsStateType(stateType) ==>
      LegacyConfiguration.StateTypeToMeanPhotonNumber(config, stateType) ==
        Ok(sender.IntensityTypeToMeanPhotonNumber(stateType))
    ensures !IsStateType(stateType) ==>
      LegacyConfiguration.StateTypeToMeanPhotonNumber(config, stateType).Err? &&
      sender.IntensityTypeToMeanPhotonNumber(stateType) == sender.darkCountRate
  {
  }
}
