/** The quantum circuits the simulator builds and runs on a simulator
    backend, reduced to what they can reach: every qubit starts in |0>, only
    X and H gates are applied, and each qubit is measured once. Such a qubit
    is always one of |0>, |1>, |+>, |-> (up to a global phase). Measuring
    |0> or |1> is certain; measuring |+> or |-> gives a random bit, taken
    here from a stream of shot draws. */
module Circuit {
  import opened Common

  datatype Kind = X | H

  datatype Gate = Gate(kind: Kind, qubit: nat)

  datatype Qubit = Zero | One | Plus | Minus

  function ApplyKind(k: Kind, q: Qubit): Qubit
  {
    match k
    case X => (match q case Zero => One case One => Zero case Plus => Plus case Minus => Minus)
    case H => (match q case Zero => Plus case One => Minus case Plus => Zero case Minus => One)
  }

  /** One gate applied to a register; a gate on a missing qubit changes nothing. */
  function Apply(g: Gate, qs: seq<Qubit>): (r: seq<Qubit>)
    ensures |r| == |qs|
  {
    if g.qubit < |qs| then qs[g.qubit := ApplyKind(g.kind, qs[g.qubit])] else qs
  }

  /** The register of `n` qubits after running `gates` from |0...0>. */
  function Run(gates: seq<Gate>, n: nat): (qs: seq<Qubit>)
    ensures |qs| == n
    decreases |gates|
  {
    if gates == [] then seq(n, _ => Zero)
    else Apply(gates[|gates| - 1], Run(gates[..|gates| - 1], n))
  }

  /** One gate of kind `k` on each of the qubits 0 .. m-1, in that order
      (the `for qubit in range(num_qubits)` loops of the source). */
  function Layer(k: Kind, m: nat): (gs: seq<Gate>)
    ensures |gs| == m
    ensures forall i :: 0 <= i < m ==> gs[i] == Gate(k, i)
  {
    seq(m, (i: nat) => Gate(k, i))
  }

  /** A layer grows one qubit at a time. */
  lemma LayerSnoc(k: Kind, m: nat)
    ensures Layer(k, m + 1) == Layer(k, m) + [Gate(k, m)]
  {
    assert Layer(k, m + 1)[..m] == Layer(k, m);
  }

  /** The gates `prepare_state` appends: none for an empty pulse, otherwise
      an X on every qubit iff the bit is 1, then an H on every qubit iff the
      basis is diagonal. */
  function PrepareGates(bit: Bit, basis: Bit, n: nat): seq<Gate>
  {
    if n == 0 then []
    else (if bit == 1 then Layer(X, n) else []) + (if basis == 1 then Layer(H, n) else [])
  }

  /** The basis change applied before measuring in `basis`. */
  function MeasurementGates(basis: Bit, n: nat): seq<Gate>
  {
    if basis == 1 then Layer(H, n) else []
  }

  function MeasureQubit(q: Qubit, draw: real): Bit
  {
    match q
    case Zero => 0
    case One => 1
    case Plus => CoinOf(draw)
    case Minus => CoinOf(draw)
  }

  function MeasureAt(qs: seq<Qubit>, shot: Stream, i: nat): Bit
    requires i < |qs|
  {
    MeasureQubit(qs[i], shot(i))
  }

  /** One shot measuring every qubit; qubit i uses shot draw i. */
  function MeasureRegister(qs: seq<Qubit>, shot: Stream): (bits: seq<Bit>)
    ensures |bits| == |qs|
  {
    seq(|qs|, i requires 0 <= i < |qs| => MeasureAt(qs, shot, i))
  }

  /** Python's `max(set(bits), key=bits.count)`: the more frequent bit; on a
      tie the set's first element, 0. An empty list raises in Python and is
      never measured. */
  function Majority(bits: seq<Bit>): (m: Bit)
    requires |bits| > 0
    ensures m == 1 ==> Count(bits, 1) > Count(bits, 0)
    ensures m == 0 ==> Count(bits, 0) >= Count(bits, 1)
  {
    if Count(bits, 1) > Count(bits, 0) then 1 else 0
  }

  /** The measured bit string of a circuit of `n` qubits measured after
      `gates`. */
  function Shot(gates: seq<Gate>, n: nat, shot: Stream): (bits: seq<Bit>)
    ensures |bits| == n
  {
    MeasureRegister(Run(gates, n), shot)
  }

  /** Appending a layer applies the gate kind to each qubit below `m` once. */
  lemma {:induction false} RunLayer(gates: seq<Gate>, k: Kind, n: nat, m: nat)
    requires m <= n
    ensures Run(gates + Layer(k, m), n)
         == seq(n, i requires 0 <= i < n =>
                  if i < m then ApplyKind(k, Run(gates, n)[i]) else Run(gates, n)[i])
  {
    if m == 0 {
      assert gates + Layer(k, 0) == gates;
    } else {
      var longer := gates + Layer(k, m);
      assert longer[..|longer| - 1] == gates + Layer(k, m - 1);
      assert longer[|longer| - 1] == Gate(k, m - 1);
      RunLayer(gates, k, n, m - 1);
    }
  }

  /** Every qubit of the register holds the same single-qubit state. */
  ghost predicate Uniform(qs: seq<Qubit>, q: Qubit)
  {
    forall i :: 0 <= i < |qs| ==> qs[i] == q
  }

  lemma UniformLayer(gates: seq<Gate>, k: Kind, n: nat, q: Qubit)
    requires Uniform(Run(gates, n), q)
    ensures Uniform(Run(gates + Layer(k, n), n), ApplyKind(k, q))
  {
    RunLayer(gates, k, n, n);
  }

  function Encoded(bit: Bit): Qubit
  {
    if bit == 1 then One else Zero
  }

  /** After `prepare_state`, every qubit holds the bit in the chosen basis. */
  lemma {:induction false} PreparedRegister(bit: Bit, basis: Bit, n: nat)
    ensures Uniform(Run(PrepareGates(bit, basis, n), n),
                    if basis == 1 then ApplyKind(H, Encoded(bit)) else Encoded(bit))
  {
    if n > 0 {
      var xs: seq<Gate> := if bit == 1 then Layer(X, n) else [];
      assert Uniform(Run([], n), Zero);
      if bit == 1 {
        UniformLayer([], X, n, Zero);
        assert [] + Layer(X, n) == xs;
      }
      assert Uniform(Run(xs, n), Encoded(bit));
      if basis == 1 {
        UniformLayer(xs, H, n, Encoded(bit));
      } else {
        assert xs + [] == xs;
      }
    }
  }

  /** Preparing in one basis and measuring in the same basis returns the
      encoded bit on every qubit: H followed by H is the identity. */
  lemma MatchedBasisShot(bit: Bit, basis: Bit, n: nat, shot: Stream)
    ensures Shot(PrepareGates(bit, basis, n) + MeasurementGates(basis, n), n, shot)
         == seq(n, _ => bit)
  {
    var prep := PrepareGates(bit, basis, n);
    PreparedRegister(bit, basis, n);
    var q := if basis == 1 then ApplyKind(H, Encoded(bit)) else Encoded(bit);
    if basis == 1 {
      UniformLayer(prep, H, n, q);
    } else {
      assert prep + [] == prep;
    }
    ShotOfDefinite(prep + MeasurementGates(basis, n), n, bit, shot);
  }

  /** The first `n` coins of a shot stream. */
  function Coins(shot: Stream, n: nat): (bits: seq<Bit>)
    ensures |bits| == n && forall i :: 0 <= i < n ==> bits[i] == CoinOf(shot(i))
  {
    if n == 0 then [] else Coins(shot, n - 1) + [CoinOf(shot(n - 1))]
  }

  /** Measuring in the other basis leaves every qubit in |+> or |->, so each
      measured bit is the qubit's shot coin. */
  lemma MismatchedBasisShot(bit: Bit, basis: Bit, n: nat, shot: Stream)
    ensures Shot(PrepareGates(bit, basis, n) + MeasurementGates(1 - basis, n), n, shot)
         == Coins(shot, n)
  {
    var prep := PrepareGates(bit, basis, n);
    PreparedRegister(bit, basis, n);
    if basis == 0 {
      UniformLayer(prep, H, n, Encoded(bit));
    } else {
      assert prep + [] == prep;
    }
    var q := ApplyKind(H, Encoded(bit));
    assert Uniform(Run(prep + MeasurementGates(1 - basis, n), n), q);
    assert q == Plus || q == Minus;
    var bits := Shot(prep + MeasurementGates(1 - basis, n), n, shot);
    forall i | 0 <= i < n ensures bits[i] == CoinOf(shot(i)) {
    }
  }

  /** A register in which every qubit holds the same classical bit measures
      that bit everywhere, whatever the shot draws. */
  lemma ShotOfDefinite(gates: seq<Gate>, n: nat, bit: Bit, shot: Stream)
    requires Uniform(Run(gates, n), Encoded(bit))
    ensures Shot(gates, n, shot) == seq(n, _ => bit)
  {
    var bits := Shot(gates, n, shot);
    forall i | 0 <= i < n ensures bits[i] == bit {
      assert Run(gates, n)[i] == Encoded(bit);
    }
  }

  lemma {:induction false} CountUniform(bits: seq<Bit>, b: Bit)
    requires forall i :: 0 <= i < |bits| ==> bits[i] == b
    ensures Count(bits, b) == |bits| && Count(bits, 1 - b) == 0
  {
    if bits != [] {
      CountUniform(bits[..|bits| - 1], b);
    }
  }

  /** The majority of a non-empty register that measured `b` everywhere is `b`. */
  lemma MajorityUniform(bits: seq<Bit>, b: Bit)
    requires |bits| > 0
    requires forall i :: 0 <= i < |bits| ==> bits[i] == b
    ensures Majority(bits) == b
  {
    CountUniform(bits, b);
  }
}
