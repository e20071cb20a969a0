/** The eavesdropper of the current revision: a photon-number-splitting
    attack that lets empty pulses through, blocks single photons, and keeps
    one photon of every multi-photon pulse, reading it later in the
    sender's announced basis. */
module EavesdropperRole {
  import opened Common
  import opened Configuration
  import opened Circuit
  import opened Pulse

  /** An entry of the eavesdropper's key list: 'Empty', 'Blocked', None
      (a kept photon not yet read) or the bit read from it. */
  datatype EveKey = Empty | Blocked | Pending | Revealed(bit: Bit)

  /** The branch taken for a pulse with `photons` photons. */
  function InterceptKey(photons: nat): (k: EveKey)
    ensures k == Empty <==> photons == 0
    ensures k == Blocked <==> photons == 1
    ensures k == Pending <==> photons > 1
  {
    if photons == 0 then Empty
    else if photons == 1 then Blocked
    else Pending
  }

  /** The one-qubit circuit kept from a multi-photon pulse: the pulse's bit
      and basis encoded on a single qubit; nothing otherwise. */
  function Extracted(v: PulseView): (e: Option<seq<Gate>>)
    ensures e.Some? <==> v.photons > 1
    ensures e.Some? ==> e.value == PrepareGates(v.bit, v.basis, 1)
  {
    if v.photons > 1 then Some(PrepareGates(v.bit, v.basis, 1)) else None
  }

  /** What is left of a pulse after the attack: one photon fewer when more
      than one arrived, untouched otherwise. */
  function Remaining(v: PulseView): (w: PulseView)
    ensures w.bit == v.bit && w.basis == v.basis
    ensures w.photons == if v.photons > 1 then v.photons - 1 else v.photons
  {
    if v.photons > 1 then PulseView(v.bit, v.basis, v.photons - 1) else v
  }

  /** The pulse sent on to the receiver: for a single photon a vacuum pulse
      with a random bit and basis, otherwise what is left of the original. */
  function ForwardView(v: PulseView, bitDraw: real, basisDraw: real): (w: PulseView)
    ensures v.photons == 1 ==> w == PulseView(CoinOf(bitDraw), CoinOf(basisDraw), 0)
    ensures v.photons != 1 ==> w == Remaining(v)
  {
    if v.photons == 1 then PulseView(CoinOf(bitDraw), CoinOf(basisDraw), 0) else Remaining(v)
  }

  /** The attack never adds photons, and every pulse that still carries a
      photon is forwarded with the sender's bit and basis: the attack
      leaves no trace in the basis-matched results of multi-photon pulses. */
  lemma ForwardKeepsEncoding(v: PulseView, bitDraw: real, basisDraw: real)
    ensures ForwardView(v, bitDraw, basisDraw).photons <= v.photons
    ensures ForwardView(v, bitDraw, basisDraw).photons > 0 ==>
      ForwardView(v, bitDraw, basisDraw).bit == v.bit &&
      ForwardView(v, bitDraw, basisDraw).basis == v.basis
    ensures ForwardView(v, bitDraw, basisDraw).photons == 0 <==> v.photons <= 1
  {
  }

  /** Reading a kept qubit: an H first when the basis is diagonal, then one
      shot of the measurement. */
  function ReadQubit(gates: seq<Gate>, basis: Bit, shot: Stream): Bit
  {
    Shot(gates + MeasurementGates(basis, 1), 1, shot)[0]
  }

  /** Read in the basis it was prepared in, the kept qubit gives the
      pulse's bit. */
  lemma ReadInSenderBasis(v: PulseView, shot: Stream)
    requires v.photons > 1
    ensures ReadQubit(Extracted(v).value, v.basis, shot) == v.bit
  {
    MatchedBasisShot(v.bit, v.basis, 1, shot);
  }

  /** Read in the other basis, it gives the shot's fair coin instead. */
  lemma ReadInOtherBasis(v: PulseView, shot: Stream)
    requires v.photons > 1
    ensures ReadQubit(Extracted(v).value, 1 - v.basis, shot) == CoinOf(shot(0))
  {
    MismatchedBasisShot(v.bit, v.basis, 1, shot);
  }

  /** One turn of the interception loop on pulse `s`. A multi-photon pulse
      loses a photon in place and its circuit is rebuilt; a single photon
      is replaced by a new vacuum pulse whose bit and basis come from the
      two draws. */
  method Intercept(s: State, config: Config?, bitDraw: real, basisDraw: real)
    returns (entry: EveKey, extracted: Option<seq<Gate>>, forwarded: State)
    requires s.Valid()
    modifies s
    ensures entry == InterceptKey(old(s.numQubits))
    ensures extracted == Extracted(old(s.View()))
    ensures forwarded.Valid()
    ensures forwarded.View() == ForwardView(old(s.View()), bitDraw, basisDraw)
    ensures s.View() == Remaining(old(s.View())) && s.Valid()
    ensures old(s.numQubits) == 1 ==> fresh(forwarded) && forwarded.meanPhotonNumber == 0.0
    ensures old(s.numQubits) != 1 ==> forwarded == s
  {
    if s.numQubits == 0 {
      entry, extracted, forwarded := Empty, None, s;
    } else if s.numQubits == 1 {
      var r := NewState(CoinOf(bitDraw), CoinOf(basisDraw), "vacuum", config, 0);
      entry, extracted, forwarded := Blocked, None, r.value;
    } else {
      extracted := Some(PrepareGates(s.bitValue, s.basis, 1));
      entry := Pending;
      s.numQubits := s.numQubits - 1;
      s.circuit := [];
      s.PrepareState();
      forwarded := s;
    }
  }

  /** What `post_process` makes of one key entry: a kept qubit still
      unread is read in the given basis; every other entry stays. */
  function Reveal(k: EveKey, e: Option<seq<Gate>>, basis: Bit, shot: Stream): (r: EveKey)
    ensures k != Pending || e.None? ==> r == k
    ensures k == Pending && e.Some? ==> r == Revealed(ReadQubit(e.value, basis, shot))
  {
    if k == Pending && e.Some? then Revealed(ReadQubit(e.value, basis, shot)) else k
  }

  /** Read in the sender's basis, every photon the attack kept reveals the
      sender's bit; empty and blocked pulses reveal nothing. */
  lemma RevealInSenderBasis(v: PulseView, shot: Stream)
    ensures v.photons > 1 ==>
      Reveal(InterceptKey(v.photons), Extracted(v), v.basis, shot) == Revealed(v.bit)
    ensures v.photons <= 1 ==>
      Reveal(InterceptKey(v.photons), Extracted(v), v.basis, shot) == InterceptKey(v.photons)
  {
    if v.photons > 1 {
      ReadInSenderBasis(v, shot);
    }
  }

  /** One turn of the loop of `perform_action`, for pulses whose views on
      entry were `vs`: pulse i is intercepted and the three lists grow by
      its entries. */
  method InterceptNext(states: seq<State>, ghost vs: seq<PulseView>, config: Config?, coins: Stream,
                       i: nat, keys: seq<EveKey>, kept: seq<Option<seq<Gate>>>, sent: seq<State>)
    returns (keys': seq<EveKey>, kept': seq<Option<seq<Gate>>>, sent': seq<State>)
    requires i < |states| == |vs| && |keys| == i && |kept| == i && |sent| == i
    requires forall j, k {:trigger states[j], states[k]} ::
      0 <= j < |states| && 0 <= k < |states| && j != k ==> states[j] != states[k]
    requires forall j :: 0 <= j < |states| ==>
      if j < i then
        keys[j] == InterceptKey(vs[j].photons) && kept[j] == Extracted(vs[j]) &&
        sent[j].Valid() && sent[j].View() == ForwardView(vs[j], coins(2 * j), coins(2 * j + 1)) &&
        states[j].View() == Remaining(vs[j]) && states[j].Valid() &&
        (if vs[j].photons == 1 then sent[j] !in states else sent[j] == states[j])
      else
        states[j].View() == vs[j] && states[j].Valid()
    modifies states[i]
    ensures |keys'| == i + 1 && |kept'| == i + 1 && |sent'| == i + 1 && sent'[..i] == sent
    ensures vs[i].photons == 1 ==> fresh(sent'[i])
    ensures forall j :: 0 <= j < |states| ==>
      if j < i + 1 then
        keys'[j] == InterceptKey(vs[j].photons) && kept'[j] == Extracted(vs[j]) &&
        sent'[j].Valid() && sent'[j].View() == ForwardView(vs[j], coins(2 * j), coins(2 * j + 1)) &&
        states[j].View() == Remaining(vs[j]) && states[j].Valid() &&
        (if vs[j].photons == 1 then sent'[j] !in states else sent'[j] == states[j])
      else
        states[j].View() == vs[j] && states[j].Valid()
  {
    var entry, extracted, out := Intercept(states[i], config, coins(2 * i), coins(2 * i + 1));
    keys', kept', sent' := keys + [entry], kept + [extracted], sent + [out];
  }

  /** The bases list `post_process` writes into: the existing one, or a
      new one of the sender's length whose unset entries are 0. */
  function Allocated(bases: Option<seq<int>>, n: nat): (b: seq<int>)
    ensures bases.Some? ==> b == bases.value
    ensures bases.None? ==> |b| == n && forall i :: 0 <= i < n ==> b[i] == 0
  {
    if bases.Some? then bases.value else seq(n, _ => 0)
  }

  /** How far a loop over `k` entries gets that indexes two lists of
      lengths `a` and `b` at every step: the first index out of range, or
      `k` when there is none. */
  function Reached(k: nat, a: nat, b: nat): (m: nat)
    ensures m <= k && m <= a && m <= b
    ensures m == k || m == a || m == b
  {
    if k <= a && k <= b then k else if a <= b then a else b
  }

  class Eavesdropper {
    var bases: Option<seq<int>>
    var key: Option<seq<EveKey>>
    var forwardedStates: Option<seq<State>>
    var extractedQubits: Option<seq<Option<seq<Gate>>>>

    /** `Eavesdropper()`: every list is still None. */
    constructor ()
      ensures Valid()
      ensures bases == None && key == None && forwardedStates == None && extractedQubits == None
    {
      bases, key, forwardedStates, extractedQubits := None, None, None, None;
    }

    /** `perform_action`: pulse i goes through `Intercept` with the draws
        `coins(2 * i)` and `coins(2 * i + 1)`; the three lists have one
        entry per pulse, and the forwarded list is returned. The pulses are
        distinct objects, as the sender creates them. */
    method PerformAction(states: seq<State>, config: Config?, coins: Stream)
      returns (forwarded: seq<State>)
      requires forall i {:trigger states[i].Valid()} :: 0 <= i < |states| ==> states[i].Valid()
      requires forall i, j {:trigger states[i], states[j]} ::
        0 <= i < |states| && 0 <= j < |states| && i != j ==> states[i] != states[j]
      modifies this`key, this`forwardedStates, this`extractedQubits
      modifies states
      ensures Valid()
      ensures forwardedStates == Some(forwarded) && |forwarded| == |states|
      ensures key.Some? && |key.value| == |states|
      ensures extractedQubits.Some? && |extractedQubits.value| == |states|
      ensures forall i :: 0 <= i < |states| ==>
        key.value[i] == InterceptKey(old(states[i].numQubits)) &&
        extractedQubits.value[i] == Extracted(old(states[i].View())) &&
        forwarded[i].Valid() &&
        forwarded[i].View() == ForwardView(old(states[i].View()), coins(2 * i), coins(2 * i + 1)) &&
        states[i].View() == Remaining(old(states[i].View())) && states[i].Valid() &&
        if old(states[i].numQubits) == 1 then fresh(forwarded[i]) && forwarded[i] !in states
        else forwarded[i] == states[i]
    {
      ghost var vs := seq(|states|, j requires 0 <= j < |states| reads states => states[j].View());
      var keys: seq<EveKey> := [];
      var kept: seq<Option<seq<Gate>>> := [];
      var sent: seq<State> := [];
      var i := 0;
      while i < |states|
        invariant 0 <= i <= |states| == |vs|
        invariant |keys| == i && |kept| == i && |sent| == i
        invariant forall j :: 0 <= j < |states| ==> vs[j] == old(states[j].View())
        invariant forall j :: 0 <= j < |states| ==>
          if j < i then
            keys[j] == InterceptKey(vs[j].photons) && kept[j] == Extracted(vs[j]) &&
            sent[j].Valid() && sent[j].View() == ForwardView(vs[j], coins(2 * j), coins(2 * j + 1)) &&
            states[j].View() == Remaining(vs[j]) && states[j].Valid() &&
            (if vs[j].photons == 1 then sent[j] !in states else sent[j] == states[j])
          else
            states[j].View() == vs[j] && states[j].Valid()
        invariant forall j :: 0 <= j < i && vs[j].photons == 1 ==> fresh(sent[j])
      {
        keys, kept, sent := InterceptNext(states, vs, config, coins, i, keys, kept, sent);
        i := i + 1;
      }
      key, extractedQubits, forwardedStates := Some(keys), Some(kept), Some(sent);
      forwarded := sent;
    }
    /** The key and the kept qubits are filled together by
        `perform_action`, one entry per pulse, and are both None before. */
    ghost predicate Valid()
      reads this
    {
      (key.Some? <==> extractedQubits.Some?) &&
      (key.Some? ==> |key.value| == |extractedQubits.value|)
    }

    /** `post_process`: the bases list is allocated (as `np.empty`, whose
        unset entries are modelled as 0) only when it is still None. A key
        that is still None cannot be enumerated: TypeError. Otherwise, for
        each key entry i in turn, base i becomes the sender's base i, and an
        unread kept qubit is read in that basis, one shot drawn from
        `shots(i)`. The first index past the end of the sender's bases or
        of the bases list stops the loop with IndexError; the entries
        before it have been processed. */
    method PostProcess(senderBases: seq<Bit>, shots: nat -> Stream) returns (err: Option<Error>)
      requires Valid()
      modifies this`bases, this`key
      ensures Valid() && bases.Some?
      ensures var b0 := Allocated(old(bases), |senderBases|);
        |bases.value| == |b0| &&
        if old(key).None? then
          err == Some(TypeError) && key == old(key) && bases.value == b0
        else
          var m := Reached(|old(key.value)|, |senderBases|, |b0|);
          key.Some? && |key.value| == |old(key.value)| &&
          (err.None? <==> m == |key.value|) && (err.Some? ==> err == Some(IndexError)) &&
          (forall i :: 0 <= i < |b0| ==> bases.value[i] == if i < m then senderBases[i] else b0[i]) &&
          (forall i :: 0 <= i < |key.value| ==>
            key.value[i] == if i < m then Reveal(old(key.value[i]), extractedQubits.value[i], senderBases[i], shots(i))
                            else old(key.value[i]))
    {
      if bases.None? {
        bases := Some(seq(|senderBases|, _ => 0));
      }
      if key.None? {
        return Some(TypeError);
      }
      ghost var bases0 := bases.value;
      var eveBases := bases.value;
      var results := key.value;
      var i := 0;
      while i < |results|
        invariant 0 <= i <= |results| == |old(key.value)|
        invariant i <= |senderBases| && i <= |bases0| && |eveBases| == |bases0|
        invariant forall j :: 0 <= j < |eveBases| ==>
          eveBases[j] == if j < i then senderBases[j] else bases0[j]
        invariant forall j :: 0 <= j < |results| ==>
          results[j] == if j < i then Reveal(old(key.value[j]), extractedQubits.value[j], senderBases[j], shots(j))
                        else old(key.value[j])
      {
        if i == |senderBases| || i == |eveBases| {
          bases, key := Some(eveBases), Some(results);
          return Some(IndexError);
        }
        var eveBasis := senderBases[i];
        eveBases := eveBases[i := eveBasis];
        if results[i] == Pending {
          var extractedQubit := extractedQubits.value[i];
          if extractedQubit.Some? {
            var measuredBit := ReadQubit(extractedQubit.value, eveBasis, shots(i));
            results := results[i := Revealed(measuredBit)];
          }
        }
        i := i + 1;
      }
      bases, key := Some(eveBases), Some(results);
      err := None;
    }
  }
}
