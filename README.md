# Decoy-state BB84 simulator, modelled in Dafny

This project models the decision logic of a decoy-state BB84 quantum key
distribution simulator. It covers two revisions of the simulator. The
current revision lives under `protocol/` and the earlier one at the root
of the repository.

In both revisions the same protocol runs:

- the sender (Alice) picks a random key, random bases and a random
  intensity class for every pulse (signal, decoy or vacuum);
- each pulse carries a Poisson-distributed number of photons, all
  encoding the same bit in the same basis;
- an optional eavesdropper (Eve) mounts a photon-number-splitting attack:
  - empty pulses pass untouched;
  - single photons are blocked and replaced by a forged pulse;
  - one photon of every multi-photon pulse is kept and later read in the
    sender's announced basis;
- the receiver (Bob) measures each arriving pulse in a random basis;
- the two parties sift the key on the indices where their bases agree;
- the per-class gains are turned into channel efficiencies and n-photon
  yields, which are compared with the yields the channel should give.

The current revision adds a detector model on the receiver's side:
per-photon efficiency, detector errors, dark counts and 'Wrong basis'
results. Its roles fill fixed-size arrays. The earlier revision has no
detector model. Its roles extend lists, and its sender draws labels with
a double-draw rule from fixed seeds.

How the model represents the system:

- **Randomness.** Every random draw is an explicit stream: a function from
  the draw index to a real in [0, 1) (`Stream`), or to a Poisson sample
  (`PoissonStream`). Reseeding a generator with the same seed gives the
  same stream. A two-way random choice consumes one draw and splits it at
  one half (`Common.CoinOf`). Where one method consumes a varying number
  of draws, a cursor (`pos` to `next`) threads the stream through it.
- **Quantum circuits.** The circuits are reduced to what they can reach
  (module `Circuit`). Every qubit starts in |0>, only X and H gates are
  applied, and so each qubit is one of |0>, |1>, |+>, |->. Measuring |0>
  or |1> is certain; measuring |+> or |-> gives the shot stream's coin for
  that qubit. This lets the model prove, rather than assume, that a pulse
  measured in its own basis gives its bit and that the majority vote over
  a pulse's qubits returns that bit.
- **Singleton configuration.** The class-level instance slot is an object
  (`ConfigStore`) whose first construction fixes the parameters.
- **Floating point.** The logarithm and `10 ** x` are parameters. A
  non-finite numpy result (division by zero, log of zero) is `None`.

Modules, current revision: `Common`, `Circuit`, `Configuration`, `Role`,
`Pulse`, `SenderRole`, `ReceiverRole`, `EavesdropperRole`, `Sifting` and
`ProtocolRun`. Earlier revision: `LegacyConfiguration`, `LegacyRole`,
`LegacyPulse`, `LegacySenderRole`, `LegacyReceiverRole`,
`LegacyEavesdropperRole` and `LegacyProtocolRun`. `Common`, `Circuit` and
`Sifting` serve both revisions.

## Model

| member | source | states |
|---|---|---|
| Common.CoinOf | protocol/roles/role.py:35 | A fair two-way choice yields 1 exactly when its draw is in the upper half. |
| Common.Poisson | protocol/state.py:40 | The photon-count sampler rejects a negative mean, gives 0 photons for mean 0, and gives the drawn sample otherwise. |
| Circuit.PreparedRegister | protocol/state.py:56-71 | After the preparation gates every qubit holds the same state: the bit's basis state, turned by H in the diagonal basis. |
| Circuit.MatchedBasisShot | protocol/state.py:128-156 | A pulse prepared and measured in the same basis measures its bit on every qubit, whatever the shot draws. |
| Circuit.MismatchedBasisShot | protocol/state.py:128-156 | Measured in the other basis, qubit i of a pulse gives the coin of shot draw i, unrelated to the pulse's bit. |
| Circuit.MajorityUniform | protocol/state.py:155-156 | `max(set(bits), key=bits.count)` over a register that measured b everywhere is b. |
| Circuit.Majority | protocol/state.py:156 | `max(set(bits), key=bits.count)`: the result is a most frequent bit, and a tie gives 0, the first element of `{0, 1}`. |
| Circuit.Coins | protocol/state.py:149-155 | The first n shot coins: n bits, bit i being the coin of draw i. |
| Configuration.Config.constructor | protocol/config.py:21-30 | A new instance stores exactly the eight given parameters. |
| Configuration.ConfigStore.constructor | protocol/config.py:9 | Before any construction there is no instance. |
| Configuration.ConfigStore.New | protocol/config.py:11-32 | The first construction creates and stores an instance holding the arguments. Every later one returns that same instance and ignores its arguments. |
| Configuration.ConfigStore.GetInstance | protocol/config.py:34-36 | Returns the stored instance, or none before the first construction. |
| Configuration.StateTypeToMeanPhotonNumber | protocol/config.py:38-57 | Signal maps to mu and decoy to nu, both read from the instance, and fail with AttributeError when there is none. Vacuum maps to 0 without the instance. Any other label is a ValueError, and only such labels are. |
| Role.PerformAction | protocol/roles/role.py:19-21 | The base action always fails with NotImplementedError. The earlier revision's base action (roles/role.py:10-12) is the same and is modelled by this member too. |
| Role.RandomBitSelection | protocol/roles/role.py:23-35 | One fair bit per element, bit i decided by draw i of the reseeded stream. |
| Role.Classify | protocol/roles/role.py:55-62 | A draw is 'signal' iff below the signal percentage, 'decoy' iff in the next decoy-percentage-wide interval, and 'vacuum' iff at or above both bounds; always one of the three labels. |
| Role.StateSelection | protocol/roles/role.py:55-64 | n labels, label i being the classification of draw i. |
| Role.RandomStateSelection | protocol/roles/role.py:37-64 | Without a configuration instance it fails with AttributeError. Otherwise it returns n labels, each a valid class: 'signal' iff its draw is below the signal percentage, 'decoy' iff the draw falls in the decoy interval. |
| Role.SameDrawsSameStates | protocol/roles/role.py:48-64 | Reseeding with the same seed reproduces the label list: the labels depend only on the first n draws. |
| Role.SameDrawsSameBits | protocol/roles/role.py:34-35 | The same holds for bit lists. |
| Pulse.Flip | protocol/state.py:119 | `(bit + 1) % 2` is the other bit. |
| Pulse.ValidateState | protocol/state.py:27-32 | The constructor accepts exactly a bit in {0, 1}, a basis in {0, 1} and one of the three class labels. Every rejection is a ValueError, and the bit is checked before the basis, with the source's messages. |
| Pulse.State.constructor | protocol/state.py:34-48 | A pulse holds its bit, basis, mean and photon count, and its circuit encodes them. |
| Pulse.State.PrepareState | protocol/state.py:56-71 | The circuit is extended by nothing for an empty pulse; otherwise by an X on every qubit iff the bit is 1, then an H on every qubit iff the basis is diagonal. |
| Pulse.State.AppendLayer | protocol/state.py:65-71 | One gate loop appends one gate of the given kind per qubit, in qubit order. |
| Pulse.State.MeasureState | protocol/state.py:73-162 | The imperative measurement returns exactly the outcome and draw position of the decision tree `Measurement`; it proves through the circuit model that the majority of the matched-basis shot is the pulse's bit. |
| Pulse.NewState | protocol/state.py:18-48 | Validation errors come first, then the mapping's error for the class label, then the sampler's. On success the new pulse is fresh and encoded, with the class mean and a photon count that is the Poisson sample. |
| Pulse.DetectPhotons | protocol/state.py:104-114 | The per-photon loop's counters and cursor equal the recursive definition `CountPhotons`. |
| Pulse.DarkCount | protocol/state.py:96-101 | A dark count (a random bit, two draws) happens iff the draw is below the dark-count rate; otherwise no detection (one draw). |
| Pulse.CountPhotons | protocol/state.py:104-114 | Over k photons, detected plus erroneous photons are at most k, and the loop consumes between k and 2k draws. |
| Pulse.PhotonStep | protocol/state.py:107-114 | One photon adds at most one count and consumes one or two draws. |
| Pulse.Measurement | protocol/state.py:92-126 | The result is 'Wrong basis' iff the bases differ, consuming no draw. An empty pulse is a dark-count roll. An erroneous photon flips the bit. A measurement consumes at most 2n + 2 draws. |
| Pulse.CorrectDetectionKeepsBit | protocol/state.py:128-162 | With photons detected and no error, the result is the pulse's bit, or its flip when the final draw is below half the dark-count rate. |
| Pulse.UndetectedFallsBackToDark | protocol/state.py:121-126 | When no photon is detected, the result is a dark-count roll at the first unused draw. |
| Pulse.NoErrorsWithoutErrorRate | protocol/state.py:111-112 | A detector with error rate 0 never counts an erroneous photon. |
| Pulse.AllDetectedAtFullEfficiency | protocol/state.py:109 | At efficiency 1 every photon is counted and each consumes two draws. |
| Pulse.IdealDetectorDeliversBit | protocol/state.py:73-162 | An ideal detector gives the sender's bit for every non-empty pulse measured in its own basis. |
| Pulse.CountPhotonsSameDraws | protocol/state.py:104-114 | The photon loop reads only the 2k draws it may consume. |
| Pulse.MeasurementSameDraws | protocol/state.py:73-162 | Replaying the same draws from the same position replays the measurement. |
| SenderRole.Sender.constructor | protocol/roles/sender.py:17-29 | The key and bases are fair bit lists and the classes come from the three-interval classifier, each from its own stream; every slot of the pulse array is empty. |
| SenderRole.Sender.PerformAction | protocol/roles/sender.py:37-45 | Slot i holds a fresh, encoded pulse with key bit i, basis i, the configured mean of class i and the Poisson photon count; all slots are distinct pulses, and the array itself is returned. |
| ReceiverRole.MeasureFirstExtends | protocol/roles/receiver.py:41-43 | Measuring more pulses never revises earlier results. |
| ReceiverRole.MeasurePrefix | protocol/roles/receiver.py:41-43 | A pulse's result never depends on pulses that arrive after it. |
| ReceiverRole.MeasureFirstAt | protocol/roles/receiver.py:41-42 | Result i is pulse i measured in basis i, from where the earlier measurements left the draw stream. |
| ReceiverRole.WrongBasisExactly | protocol/roles/receiver.py:42 | The receiver records 'Wrong basis' exactly where its basis differs from the pulse's. |
| ReceiverRole.IdealReceiverGetsBit | protocol/roles/receiver.py:42 | With an ideal detector every non-empty pulse in a matching basis gives the sender's bit. |
| ReceiverRole.Receiver.constructor | protocol/roles/receiver.py:16-27 | Fair random bases, and a result list and a pulse list of n empty slots. |
| ReceiverRole.Receiver.PerformAction | protocol/roles/receiver.py:34-43 | Slot i of the results holds the measurement of pulse i in basis i, and slot i of the pulse list holds the pulse. Slots past the input are unchanged. |
| EavesdropperRole.InterceptKey | protocol/roles/eavesdropper.py:49-80 | The key entry is 'Empty' iff the pulse is empty, 'Blocked' iff it holds one photon, and pending iff it holds more. |
| EavesdropperRole.Extracted | protocol/roles/eavesdropper.py:63-79 | A qubit is kept iff the pulse holds more than one photon, and it encodes the pulse's bit and basis. |
| EavesdropperRole.Remaining | protocol/roles/eavesdropper.py:82-87 | A multi-photon pulse keeps its bit and basis and loses exactly one photon; others are untouched. |
| EavesdropperRole.ForwardView | protocol/roles/eavesdropper.py:49-89 | A single photon is replaced by an empty pulse with random bit and basis; every other pulse is forwarded as what remains of it. |
| EavesdropperRole.ForwardKeepsEncoding | protocol/roles/eavesdropper.py:49-89 | The attack never adds photons. Every forwarded pulse that still carries a photon keeps the sender's bit and basis. Exactly the pulses of at most one photon arrive empty. |
| EavesdropperRole.ReadInSenderBasis | protocol/roles/eavesdropper.py:104-137 | A kept qubit read in the basis it was prepared in gives the pulse's bit. |
| EavesdropperRole.ReadInOtherBasis | protocol/roles/eavesdropper.py:104-137 | Read in the other basis, it gives the shot's fair coin. |
| EavesdropperRole.Intercept | protocol/roles/eavesdropper.py:49-89 | For one pulse: the key entry, the kept qubit and the forwarded pulse are as `InterceptKey`, `Extracted` and `ForwardView` give them. A multi-photon pulse is changed in place and stays encoded; a blocked photon's replacement is a fresh vacuum pulse. |
| EavesdropperRole.Reveal | protocol/roles/eavesdropper.py:108-139 | Only a pending entry with a kept qubit is replaced, by the bit read in the given basis; every other entry stays. |
| EavesdropperRole.RevealInSenderBasis | protocol/roles/eavesdropper.py:93-139 | Read in the sender's basis, every kept photon reveals the sender's bit, and empty or blocked pulses reveal nothing. |
| EavesdropperRole.Eavesdropper.constructor | protocol/roles/eavesdropper.py:19-24 | All four lists start as None. |
| EavesdropperRole.Eavesdropper.PerformAction | protocol/roles/eavesdropper.py:32-91 | Key, kept-qubit and forwarded lists have one entry per pulse, each as `Intercept` specifies. The originals are changed as `Remaining` says, blocked photons get fresh replacements, and the forwarded list is returned. |
| EavesdropperRole.Eavesdropper.PostProcess | protocol/roles/eavesdropper.py:93-139 | The bases list is allocated once when missing. A missing key is a TypeError. Otherwise base i becomes the sender's base i and key entry i becomes `Reveal` of its old value in that basis, for every i before the first index past the sender's bases or the bases list; reaching such an index is an IndexError, and only then is there an error. Later entries and the key's length are unchanged. |
| EavesdropperRole.Allocated | protocol/roles/eavesdropper.py:101-102 | The bases list post-processing writes into: the existing one, or a new list of the sender's length. |
| EavesdropperRole.Reached | protocol/roles/eavesdropper.py:104-106 | How far the loop gets: the first index that one of the two indexed lists lacks, or the whole key. |
| Sifting.MatchingIndices | protocol/protocol.py:100-101 | Exactly the indices below n where both bases agree, strictly increasing. |
| Sifting.SiftSelectsMatches | protocol/protocol.py:95-103 | The sifted key holds exactly the results at the matching indices, in order, and is no longer than n. |
| Sifting.Sift | protocol/protocol.py:95-103 | The sifted key has one entry per index below n at which the two bases agree. |
| Sifting.SiftLength | protocol/protocol.py:95-103 | The sifted key's length depends on the bases only, not on the results. |
| Sifting.SiftKeeps | protocol/protocol.py:95-103 | A property of every result at a matching index holds for every sifted entry. |
| Common.Count | protocol/protocol.py:115-116 | `xs.count(x)`: the number of pulses of one class (and of the bits of one value in a register) is at most the length of the list. |
| Sifting.DetectionsBounded | protocol/protocol.py:115-117 | No class has more detections than pulses. |
| Sifting.Detected | protocol/protocol.py:117 | A pulse counts as detected only where the two bases agree; there a 'Wrong basis' result and an unwritten slot both count. |
| Sifting.Detections | protocol/protocol.py:115-117 | The number of detected pulses of a class is at most the number of pulses, and smaller whenever some pair of bases disagrees. |
| Sifting.AllDetected | protocol/protocol.py:115-117 | When every pulse of a class is detected in the matched basis, the detections equal the class size. |
| Sifting.StateGain | protocol/protocol.py:105-119 | The gain lies in [0, 1], is 0 for an empty class, and times the class size equals the number of detections. |
| Sifting.Ratio | protocol/protocol.py:119 | A count over a larger positive count lies in [0, 1] and multiplies back to the count. |
| ProtocolRun.PowInUnit | protocol/protocol.py:149 | Powers of a number in [0, 1] stay in [0, 1] and never grow. |
| ProtocolRun.YieldBounds | protocol/protocol.py:138-149 | For an efficiency in [0, 1] the n-photon yield lies between the dark-count rate and that rate plus one, and grows with n. |
| ProtocolRun.SinglePhotonYield | protocol/protocol.py:138-149 | The 1-photon yield is the dark-count rate plus the efficiency; the 0-photon yield is the dark-count rate. |
| ProtocolRun.NPhotonStateYield | protocol/protocol.py:138-149 | The 0-photon yield is the dark-count rate; for an efficiency in [0, 1] every yield lies between that rate and the rate plus one. |
| ProtocolRun.Yields | protocol/protocol.py:153-161 | `range(1, 6)`-style lists: entry k is the yield of k + 1 photons, so the first entry is the dark-count rate plus the efficiency. |
| ProtocolRun.YieldsOf | protocol/protocol.py:157-161 | With a non-finite efficiency every yield is non-finite; otherwise the list is `Yields` of the efficiency. |
| ProtocolRun.StateEfficiency | protocol/protocol.py:121-136 | The efficiency is non-finite exactly when the gain equals one plus the dark-count rate or the class mean is zero. |
| ProtocolRun.EfficiencyInvertsGain | protocol/protocol.py:121-136 | The efficiency formula inverts the gain formula: the gain made by efficiency eta gives eta back. |
| ProtocolRun.HonestSiftHasNoWrongBasis | protocol/protocol.py:95-103 | On a clean channel no sifted entry is 'Wrong basis' or unwritten. |
| ProtocolRun.HonestIdealSiftIsKey | protocol/protocol.py:75-103 | On a clean channel with an ideal detector the sifted key has one entry per matching basis, and the entry of every non-empty pulse is the sender's bit. |
| ProtocolRun.SplittingUnseenOnMultiPhotonPulses | protocol/roles/eavesdropper.py:63-89 | With an ideal detector, a multi-photon pulse measured in the sender's basis gives the sender's bit with or without the eavesdropper: the attack is invisible there. |
| ProtocolRun.BlockedPulseNeverDelivers | protocol/roles/eavesdropper.py:55-61 | Without dark counts, a blocked photon gives no detection when the receiver's basis equals the forged basis, and 'Wrong basis' otherwise. |
| ProtocolRun.BlockedPulseCountsAsDetected | protocol/protocol.py:117 | A blocked pulse whose forged basis differs from the receiver's counts as a detection in the gain when the sender's and receiver's bases agree. |
| ProtocolRun.Results | protocol/protocol.py:87 | The receiver's result list has one written slot per pulse. |
| ProtocolRun.ArrivedViews | protocol/protocol.py:80-84 | Interception keeps the number of pulses. |
| ProtocolRun.Protocol.constructor | protocol/protocol.py:19-73 | The transmittance is the product of the channel and receiver attenuations and the detector efficiency. The configuration is the singleton, fixed by the first construction. Roles start as their constructors specify, the eavesdropper only when asked for, and every result list empty. |
| ProtocolRun.Protocol.BobDetector | protocol/state.py:92-126 | The receiver's detector uses the efficiency the protocol was given and the configuration's dark-count and error rates. |
| ProtocolRun.Protocol.ReconcileKeys | protocol/protocol.py:95-103 | The reconciled key is the sifted result list (see the Sifting lemmas for what that means). |
| ProtocolRun.Protocol.DetectEavesdropper | protocol/protocol.py:151-163 | The yields of 1 to 5 photons for the transmittance; for signal and decoy, the class gain, the efficiency from the configured class mean, and the yields for that efficiency. |
| ProtocolRun.Protocol.RunProtocol | protocol/protocol.py:75-93 | The receiver's results are those of measuring the sender's pulses as they arrive through the channel (intercepted when the eavesdropper is present). The eavesdropper's key classifies every sent pulse. Sifting and the estimates follow. |
| ProtocolRun.Protocol.Transmit | protocol/protocol.py:80-84 | Each arriving pulse is encoded and shows the arrived view of the sent pulse. |
| ProtocolRun.Protocol.Send | protocol/protocol.py:80 | One fresh, distinct, encoded pulse per index, as the sender's key, bases and classes describe it. |
| ProtocolRun.Protocol.Intercept | protocol/protocol.py:83-84 | What the eavesdropper forwards is what `ArrivedViews` describes, and its key classifies each pulse. |
| ProtocolRun.Protocol.Receive | protocol/protocol.py:87 | The receiver's results are the measurements of the arriving pulses. |
| ProtocolRun.Collect | protocol/roles/sender.py:47 | The pulse array read as a list, slot by slot. |
| LegacyConfiguration.Config.constructor | config.py:8-12 | A new instance stores mu, nu and the dark count rate. |
| LegacyConfiguration.ConfigStore.constructor | config.py:4 | Before any construction there is no instance. |
| LegacyConfiguration.ConfigStore.New | config.py:6-13 | The first construction stores its arguments; later ones return the stored instance unchanged. |
| LegacyConfiguration.ConfigStore.GetInstance | config.py:15-17 | Returns the stored instance, or none. |
| LegacyConfiguration.StateTypeToMeanPhotonNumber | config.py:19-38 | Signal maps to mu, decoy to nu, vacuum to the dark count rate, all read from the instance (AttributeError without one). Any other label is a ValueError, and only such labels are. |
| LegacyRole.NonSignal | roles/role.py:31-35 | At most one per label. |
| LegacyRole.LabelAt | roles/role.py:32-34 | 'signal' iff the first draw is below 0.875 (one draw). Otherwise a second draw gives 'decoy' iff below 0.9375, else 'vacuum'. |
| LegacyRole.DoubleDrawLabels | roles/role.py:31-35 | n valid labels, consuming one draw per label plus one per non-signal label. |
| LegacyRole.StartOf | roles/role.py:31-35 | Label i starts reading between draw i and draw 2i. |
| LegacyRole.LabelDecidedAtStart | roles/role.py:31-35 | Label i is decided by the draws at its own start position. |
| LegacyRole.RandomSelection | roles/role.py:15-39 | Labels iff a seed above 50 is given, else bits; n entries either way, each label valid. |
| LegacyRole.SameSeedSameSelection | roles/role.py:27 | With a seed given, unseeded entropy plays no part. |
| LegacyPulse.ValidateState | state.py:21-24 | Exactly a bit in {0, 1} and a basis in {0, 1} pass, the bit checked first, with the source's messages; any mean is accepted. |
| LegacyPulse.Measurement | state.py:64-109 | An empty pulse gives a random bit iff the draw is below the fixed 10e-5 threshold (two draws), else no detection (one draw). A non-empty pulse always gives a bit and consumes no draw. |
| LegacyPulse.MeasuredInOwnBasis | state.py:81-109 | A non-empty pulse measured in its own basis gives its bit. |
| LegacyPulse.MeasuredInOtherBasis | state.py:81-109 | Measured in the other basis it gives the majority of the shot's fair coins, independent of its bit. |
| LegacyPulse.Factorial | state.py:124 | Never below 1, so the probability's division is defined. |
| LegacyPulse.State.constructor | state.py:26-39 | A pulse holds its bit, basis, mean and photon count, and its circuit encodes them. |
| LegacyPulse.State.PrepareState | state.py:47-62 | As in the current revision: an X layer iff the bit is 1, then an H layer iff diagonal, nothing for an empty pulse. |
| LegacyPulse.State.AppendLayer | state.py:56-62 | One gate of the given kind per qubit, in order. |
| LegacyPulse.State.MeasureState | state.py:64-109 | The imperative measurement equals the decision tree `Measurement`. |
| LegacyPulse.State.PhotonNumberDistribution | state.py:111-127 | Keys exactly 0 to 9, each mapped to the Poisson probability of that photon number. |
| LegacyPulse.PoissonProbability | state.py:111-127 | The Poisson probability of 0 photons is `exp(-mean)`, and no probability is negative for a non-negative mean. |
| LegacyPulse.NewState | state.py:12-39 | Validation errors first, then the sampler's. On success a fresh encoded pulse with the given mean and the Poisson photon count. |
| LegacySenderRole.Sender.constructor | roles/sender.py:10-31 | Bases from seed 12 and key from seed 14 (bit lists); labels from seed 52 with decoy states, all 'signal' without; no pulses yet. |
| LegacySenderRole.Sender.PerformAction | roles/sender.py:57-68 | The list grows by one fresh, distinct, encoded pulse per index: key bit i, basis i, the mean of label i, the Poisson photon count. Earlier pulses are kept and the whole list is returned. |
| LegacySenderRole.SenderMappingMatchesConfig | roles/sender.py:40-55 | With the same parameters the sender's mapping agrees with the configuration's on the three labels. On any other label the sender falls back to the dark count rate where the configuration raises. |
| LegacySenderRole.Sender.IntensityTypeToMeanPhotonNumber | roles/sender.py:40-55 | Every label other than 'signal' and 'decoy' maps to the dark count rate, and the mean is non-negative when the three parameters are. |
| LegacyReceiverRole.Repeat | roles/receiver.py:39-42 | n copies of the value. |
| LegacyReceiverRole.Recorded | roles/receiver.py:41 | None is recorded as 'No detection' and a bit as itself; never 'Wrong basis'. |
| LegacyReceiverRole.MeasureFirstExtends | roles/receiver.py:38-43 | Measuring more pulses never revises earlier results. |
| LegacyReceiverRole.MeasureFirstAt | roles/receiver.py:39-41 | Result i is pulse i measured in basis i, from where the earlier measurements left the draws. |
| LegacyReceiverRole.AlwaysDetectsPhotons | roles/receiver.py:40-41 | Never 'Wrong basis', and every pulse carrying a photon gives a bit whatever the basis. |
| LegacyReceiverRole.OwnBasisGetsBit | roles/receiver.py:40-41 | A non-empty pulse measured in its own basis gives the sender's bit. |
| LegacyReceiverRole.MeasureAll | roles/receiver.py:38-43 | The measuring loop yields the recursive definition `MeasureSequence`. |
| LegacyReceiverRole.Receiver.constructor | roles/receiver.py:14-24 | Fair random bases from the unseeded generator; two empty lists. |
| LegacyReceiverRole.Receiver.PerformAction | roles/receiver.py:31-43 | The results grow by the measurements of the input in order, and the pulse list by the whole input once per pulse, for every pulse that has a basis. An input longer than the bases is an IndexError after those pulses, and only such an input is. |
| LegacyEavesdropperRole.VacuumPhotons | roles/eavesdropper.py:48-50 | The replacement pulse's photon count is the Poisson sample for the vacuum mean, and 0 when that mean is 0. |
| LegacyEavesdropperRole.ForwardView | roles/eavesdropper.py:39-77 | A single photon is replaced by a pulse with random bit and basis and the vacuum photon count; others are forwarded as what remains. |
| LegacyEavesdropperRole.ForwardAsCurrentWhenEmpty | roles/eavesdropper.py:44-50 | When the replacement pulse is empty, the earlier attack forwards what the current one does. |
| LegacyEavesdropperRole.ForwardKeepsEncoding | roles/eavesdropper.py:37-77 | Pulses other than single photons keep the sender's bit and basis and lose at most one photon; a replacement carries the drawn bit and basis. |
| LegacyEavesdropperRole.Intercept | roles/eavesdropper.py:39-77 | One pulse's key entry, kept qubit and forwarded pulse are as `InterceptKey`, `Extracted` and `ForwardView` give them; the replacement's mean is the vacuum mean. |
| LegacyEavesdropperRole.InterceptAll | roles/eavesdropper.py:37-77 | The whole loop establishes `Intercepted` for the pulses' views before the attack; replacements are fresh. |
| LegacyEavesdropperRole.RevealAll | roles/eavesdropper.py:88-121 | One sender base per result and each result `Reveal` of itself in that basis, up to the first result the sender has no base for; that result is an IndexError, and only a list longer than the sender's bases gives one. |
| LegacyEavesdropperRole.Eavesdropper.constructor | roles/eavesdropper.py:14-19 | Four empty lists. |
| LegacyEavesdropperRole.Eavesdropper.PerformAction | roles/eavesdropper.py:27-79 | The three lists keep their old entries and grow by entries that satisfy `Intercepted`. The whole forwarded list is returned. |
| LegacyEavesdropperRole.Eavesdropper.PostProcess | roles/eavesdropper.py:81-122 | The bases grow by the sender's bases, one per result, and each unread kept qubit is read in that basis, up to the first result the sender has no base for. A result list longer than the sender's bases is an IndexError, as after a second `perform_action`. |
| LegacyProtocolRun.SentPhotons | protocol.py:59 | The count is the Poisson sample for a non-negative mean. |
| LegacyProtocolRun.SentViews | protocol.py:59 | One view per bit the sender holds. |
| LegacyProtocolRun.ArrivedViews | protocol.py:62-63 | Interception keeps the number of pulses. |
| LegacyProtocolRun.Lifted | protocol.py:97 | Every slot holds its result. |
| LegacyProtocolRun.HonestSiftIsKey | protocol.py:74-82 | On a clean channel the sifted key has one entry per matching basis, and every non-empty pulse's entry is the sender's bit. |
| LegacyProtocolRun.HonestDetectionsAreMatches | protocol.py:97 | On a clean channel a non-empty pulse counts as detected iff the bases agree. |
| LegacyProtocolRun.FullGainWhenEveryPulseArrives | protocol.py:84-100 | A non-empty class whose pulses all carry photons and agree in basis has gain exactly 1. |
| LegacyProtocolRun.SplittingUnseenOnMultiPhotonPulses | roles/eavesdropper.py:52-75 | A multi-photon pulse measured in the sender's basis gives the sender's bit with or without the eavesdropper. |
| LegacyProtocolRun.ForgedBitDelivered | roles/eavesdropper.py:44-50 | A blocked photon whose replacement carries photons delivers the eavesdropper's forged bit when the receiver uses the forged basis. |
| LegacyProtocolRun.ForwardedAsArrived | roles/eavesdropper.py:27-79 | What the eavesdropper forwards is what `ArrivedViews` describes, and its key classifies each pulse. |
| LegacyProtocolRun.Protocol.constructor | protocol.py:19-52 | Fields as given. The configuration is the singleton fixed by the first construction. The sender holds the protocol's mu, nu and dark count rate, with bases from seed 12, key from seed 14, and labels from seed 52 with decoy states or all 'signal' without. The receiver and eavesdropper start empty, and the result lists are empty. |
| LegacyProtocolRun.Protocol.ReconcileKeys | protocol.py:74-82 | The reconciled key is the sifted result list. |
| LegacyProtocolRun.Protocol.DetectEavesdropper | protocol.py:132-144 | The yields of 1 to 4 photons for the transmittance; for signal and decoy the gain, the efficiency from the configured class mean, and its yields. |
| LegacyProtocolRun.Protocol.RunProtocol | protocol.py:54-72 | The receiver's results are those of measuring the sender's pulses as they arrive; replacements use the configured vacuum mean. The eavesdropper's results classify every sent pulse. Sifting and the estimates follow. |
| LegacyProtocolRun.Protocol.Transmit | protocol.py:59-63 | Each arriving pulse is encoded and shows the arrived view of the sent pulse. |
| LegacyProtocolRun.Protocol.Send | protocol.py:59 | One fresh, distinct, encoded pulse per index, as the sender describes it. |
| LegacyProtocolRun.Protocol.Intercept | protocol.py:62-63 | What the eavesdropper forwards is what `ArrivedViews` describes. |
| LegacyProtocolRun.Protocol.Receive | protocol.py:66 | The receiver's results are the measurements of the arriving pulses. |

## Left out

- Qiskit circuits, registers, transpilation and simulator backends are replaced by the single-qubit model of module `Circuit`. One simulator shot is one stream of coin draws per qubit.
- Random number generators and their seeding are streams passed in. Each role call gets its own stream where the source shares one global generator. So the exact interleaving of draws between roles is not modelled.
- The concrete Poisson sampler is a per-pulse sample stream, not numpy's algorithm.
- Floating-point arithmetic is modelled with exact reals. `np.log` and `10 ** x` are parameters. A non-finite result (division by zero, log of zero) is `None`.
- `LegacyPulse.PoissonProbability` takes the exponential as a parameter, so the distribution's values are not computed numerically.
- Slots of `np.empty` arrays that are never written are modelled as `None`. Unwritten bases in the current eavesdropper's `post_process` are modelled as 0.
- `__str__`, `add_noise` (both revisions), printing, plotting, file I/O, the simulation drivers and `main.py` are not part of this model.
- ReceiverRole.Receiver.PerformAction: requires no more pulses than the receiver has bases; a longer input raises IndexError in the source.
- EavesdropperRole.Eavesdropper.PerformAction: requires the pulses to be distinct objects, as the sender creates them. Aliased pulses are not modelled.
- SenderRole.Sender.PerformAction: requires non-negative class means. A negative mean raises in the sampler, and that error path is modelled only in `Pulse.NewState`.
- LegacySenderRole.Sender.PerformAction: requires non-negative means, for the same reason.
- LegacyProtocolRun.Protocol.RunProtocol: requires a fresh protocol object. A second run hands the receiver the pulses of both runs, more than it has bases for.
- ProtocolRun.Protocol.RunProtocol: does not call the eavesdropper's `post_process`, because the source's run does not.
- The current `Protocol` passes `detector_efficiency` to `Config`, whose constructor does not accept it, and `measure_state` reads it back from the configuration. The model keeps the efficiency on the protocol and hands it to the receiver's detector (`ProtocolRun.Protocol.BobDetector`). The configuration stores the computed transmittance.
- The current `reconcile_keys` and `state_gain` read `bob.measurement_results`, which the current receiver does not have; the model reads the receiver's result list `key`.
- The current `Protocol` builds `Sender(num_bits, use_decoy_states)`, but the current sender takes only `num_bits`, and nothing in the current revision reads `use_decoy_states`. The model builds the sender from the number of bits and the configuration, and stores `use_decoy_states` on the protocol without effect.
- The earlier receiver calls `random_bit_selection`, which the earlier role class does not define. The model uses fair unseeded bits (`Role.RandomBitSelection`).
- The earlier protocol passes percentages to `Config` and builds `Sender(num_bits, use_decoy_states)`, neither matching its callee. The model builds `Config(mu, nu, dark_count_rate)` and a sender with the protocol's mu, nu and dark count rate.
- The earlier `state_gain` reads `alice.states_types`; the model reads the sender's `intensity_types`.
- The earlier eavesdropper builds its replacement pulse with a `state_type` argument the earlier `State` does not accept. The model gives it the earlier mapping's vacuum mean, the dark count rate.
- The earlier `State` declares `mean_photon_number = float` as a default value. The model always passes a mean.
- The earlier `post_process` builds its measurement circuit without a measurement; the model reads the kept qubit as the current revision does.
- The earlier receiver's two lists are extended once after its loop. This gives the same lists as extending them per pulse.
