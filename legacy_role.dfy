/** The selection helper of the earlier revision: one function that, after
    reseeding, returns either fair bits or intensity labels depending on
    the seed. Labels use a double-draw rule, so the number of draws an
    element consumes depends on its label. */
module LegacyRole {
  import opened Common
  import opened Configuration
  import opened Role

  /** What `random_selection` returns: a bit list or a label list. */
  datatype Selection = Bits(bits: seq<Bit>) | Labels(labels: seq<string>)

  /** Labels and the position of the next unused draw. */
  datatype Labelled = Labelled(labels: seq<string>, next: nat)

  /** The number of labels other than 'signal'. */
  function NonSignal(labels: seq<string>): (c: nat)
    ensures c <= |labels|
  {
    if labels == [] then 0
    else (if labels[0] == "signal" then 0 else 1) + NonSignal(labels[1..])
  }

  /** One label: 'signal' when the first draw is below 0.875; otherwise a
      second draw gives 'decoy' below 0.9375 and 'vacuum' above. */
  function LabelAt(draws: Stream, pos: nat): (l: Labelled)
    ensures |l.labels| == 1 && IsStateType(l.labels[0])
    ensures l.labels[0] == "signal" <==> draws(pos) < 0.875
    ensures l.labels[0] == "decoy" <==> !(draws(pos) < 0.875) && draws(pos + 1) < 0.9375
    ensures l.next == if l.labels[0] == "signal" then pos + 1 else pos + 2
  {
    if draws(pos) < 0.875 then Labelled(["signal"], pos + 1)
    else if draws(pos + 1) < 0.9375 then Labelled(["decoy"], pos + 2)
    else Labelled(["vacuum"], pos + 2)
  }

  /** The label list comprehension: `n` labels read from `pos` on. Every
      label is one of the three classes, and each non-signal label costs
      one extra draw. */
  function DoubleDrawLabels(n: nat, draws: Stream, pos: nat): (r: Labelled)
    ensures |r.labels| == n
    ensures forall i :: 0 <= i < n ==> IsStateType(r.labels[i])
    ensures r.next == pos + n + NonSignal(r.labels)
  {
    if n == 0 then Labelled([], pos)
    else
      var first := LabelAt(draws, pos);
      var rest := DoubleDrawLabels(n - 1, draws, first.next);
      assert (first.labels + rest.labels)[1..] == rest.labels;
      Labelled(first.labels + rest.labels, rest.next)
  }

  /** The first draw label i reads: each label before it took one draw,
      or two when it was not 'signal'. */
  function StartOf(draws: Stream, pos: nat, i: nat): (start: nat)
    ensures pos + i <= start <= pos + 2 * i
    decreases i
  {
    if i == 0 then pos else StartOf(draws, LabelAt(draws, pos).next, i - 1)
  }

  /** Label i is the single label read at its own start: 'signal' iff that
      draw is below 0.875, otherwise decided by the draw after it. */
  lemma {:induction false} LabelDecidedAtStart(n: nat, draws: Stream, pos: nat, i: nat)
    requires i < n
    ensures DoubleDrawLabels(n, draws, pos).labels[i] == LabelAt(draws, StartOf(draws, pos, i)).labels[0]
  {
    var first := LabelAt(draws, pos);
    var rest := DoubleDrawLabels(n - 1, draws, first.next);
    if i > 0 {
      LabelDecidedAtStart(n - 1, draws, first.next, i - 1);
      assert (first.labels + rest.labels)[i] == rest.labels[i - 1];
    }
  }

  /** `random_selection`: reseeds (with `seed`, or from fresh entropy when
      there is none) and returns labels when the seed is above 50, bits
      otherwise. `seeded(s)` is the stream seed `s` produces. */
  function RandomSelection(numElements: nat, seed: Option<int>, seeded: int -> Stream,
                           entropy: Stream): (s: Selection)
    ensures s.Labels? <==> seed.Some? && seed.value > 50
    ensures s.Bits? ==> |s.bits| == numElements
    ensures s.Labels? ==>
      |s.labels| == numElements && forall i :: 0 <= i < numElements ==> IsStateType(s.labels[i])
  {
    var draws := if seed.Some? then seeded(seed.value) else entropy;
    if seed.Some? && seed.value > 50 then Labels(DoubleDrawLabels(numElements, draws, 0).labels)
    else Bits(RandomBitSelection(numElements, draws))
  }

  /** With a seed given, the fresh entropy plays no part: the same seed
      gives the same list. */
  lemma SameSeedSameSelection(numElements: nat, seed: int, seeded: int -> Stream, e1: Stream, e2: Stream)
    ensures RandomSelection(numElements, Some(seed), seeded, e1)
         == RandomSelection(numElements, Some(seed), seeded, e2)
  {
  }
}
