/** Sifting and per-class gain counting: which receiver results survive
    the basis comparison, and how many pulses of an intensity class gave a
    detection in the matched basis. Both revisions of the protocol share
    these rules. */
module Sifting {
  import opened Common

  /** The indices below `n` at which the two basis lists agree, in
      increasing order. */
  function MatchingIndices(aBases: seq<Bit>, bBases: seq<Bit>, n: nat): (idx: seq<nat>)
    requires n <= |aBases| && n <= |bBases|
    ensures |idx| <= n
    ensures forall k :: 0 <= k < |idx| ==> idx[k] < n && aBases[idx[k]] == bBases[idx[k]]
    ensures forall k, l :: 0 <= k < l < |idx| ==> idx[k] < idx[l]
    ensures forall i :: 0 <= i < n && aBases[i] == bBases[i] ==> i in idx
  {
    if n == 0 then []
    else if aBases[n - 1] == bBases[n - 1] then MatchingIndices(aBases, bBases, n - 1) + [n - 1]
    else MatchingIndices(aBases, bBases, n - 1)
  }

  /** The results at the first `n` indices whose bases agree, in index
      order. */
  function Sift<T>(aBases: seq<Bit>, bBases: seq<Bit>, results: seq<T>, n: nat): (key: seq<T>)
    requires n <= |aBases| && n <= |bBases| && n <= |results|
    ensures |key| == |MatchingIndices(aBases, bBases, n)|
  {
    if n == 0 then []
    else if aBases[n - 1] == bBases[n - 1] then Sift(aBases, bBases, results, n - 1) + [results[n - 1]]
    else Sift(aBases, bBases, results, n - 1)
  }

  /** The sifted key holds exactly the results at the matching indices, in
      order; so it is never longer than the lists it comes from. */
  lemma {:induction false} SiftSelectsMatches<T>(aBases: seq<Bit>, bBases: seq<Bit>, results: seq<T>, n: nat)
    requires n <= |aBases| && n <= |bBases| && n <= |results|
    ensures |Sift(aBases, bBases, results, n)| == |MatchingIndices(aBases, bBases, n)| <= n
    ensures forall k :: 0 <= k < |MatchingIndices(aBases, bBases, n)| ==>
      Sift(aBases, bBases, results, n)[k] == results[MatchingIndices(aBases, bBases, n)[k]]
  {
    if n > 0 {
      SiftSelectsMatches(aBases, bBases, results, n - 1);
    }
  }

  /** Whatever the results are, the sifted key is as long as the number of
      matching bases. */
  lemma SiftLength<T>(aBases: seq<Bit>, bBases: seq<Bit>, r1: seq<T>, r2: seq<T>, n: nat)
    requires n <= |aBases| && n <= |bBases| && n <= |r1| && n <= |r2|
    ensures |Sift(aBases, bBases, r1, n)| == |Sift(aBases, bBases, r2, n)|
  {
    SiftSelectsMatches(aBases, bBases, r1, n);
    SiftSelectsMatches(aBases, bBases, r2, n);
  }

  /** A property every result at a matching index has is shared by every
      entry of the sifted key. */
  lemma {:induction false} SiftKeeps<T>(aBases: seq<Bit>, bBases: seq<Bit>, results: seq<T>, n: nat,
                                        good: T -> bool)
    requires n <= |aBases| && n <= |bBases| && n <= |results|
    requires forall i :: 0 <= i < n && aBases[i] == bBases[i] ==> good(results[i])
    ensures forall x :: x in Sift(aBases, bBases, results, n) ==> good(x)
  {
    if n > 0 {
      SiftKeeps(aBases, bBases, results, n - 1, good);
    }
  }

  /** Whether pulse i counts as detected: a result other than
      'No detection' in the matched basis. An unwritten slot and a
      'Wrong basis' result both count. */
  predicate Detected(aBases: seq<Bit>, bBases: seq<Bit>, results: seq<Option<Outcome>>, i: nat)
    requires i < |aBases| && i < |bBases| && i < |results|
    ensures Detected(aBases, bBases, results, i) ==> aBases[i] == bBases[i]
    ensures aBases[i] == bBases[i] && results[i] in {Some(WrongBasis), None} ==> Detected(aBases, bBases, results, i)
  {
    results[i] != Some(NoDetection) && aBases[i] == bBases[i]
  }

  /** The number of pulses labelled `stateType` that count as detected. */
  function Detections(types: seq<string>, stateType: string, aBases: seq<Bit>, bBases: seq<Bit>,
                      results: seq<Option<Outcome>>): (d: nat)
    requires |types| <= |aBases| && |types| <= |bBases| && |types| <= |results|
    ensures d <= |types|
    ensures forall i :: 0 <= i < |types| ==> aBases[i] != bBases[i] ==> d < |types|
  {
    if types == [] then 0
    else
      var i := |types| - 1;
      Detections(types[..i], stateType, aBases, bBases, results) +
        (if types[i] == stateType && Detected(aBases, bBases, results, i) then 1 else 0)
  }

  /** No class has more detections than pulses. */
  lemma {:induction false} DetectionsBounded(types: seq<string>, stateType: string, aBases: seq<Bit>,
                                             bBases: seq<Bit>, results: seq<Option<Outcome>>)
    requires |types| <= |aBases| && |types| <= |bBases| && |types| <= |results|
    ensures Detections(types, stateType, aBases, bBases, results) <= Count(types, stateType)
  {
    if types != [] {
      DetectionsBounded(types[..|types| - 1], stateType, aBases, bBases, results);
    }
  }

  /** When every pulse of the class is detected in the matched basis, the
      count of detections is the class size. */
  lemma {:induction false} AllDetected(types: seq<string>, stateType: string, aBases: seq<Bit>,
                                       bBases: seq<Bit>, results: seq<Option<Outcome>>)
    requires |types| <= |aBases| && |types| <= |bBases| && |types| <= |results|
    requires forall i :: 0 <= i < |types| && types[i] == stateType ==> Detected(aBases, bBases, results, i)
    ensures Detections(types, stateType, aBases, bBases, results) == Count(types, stateType)
  {
    if types != [] {
      AllDetected(types[..|types| - 1], stateType, aBases, bBases, results);
    }
  }

  /** `state_gain`: detections over the class size, 0 for an empty class. */
  function StateGain(types: seq<string>, stateType: string, aBases: seq<Bit>, bBases: seq<Bit>,
                     results: seq<Option<Outcome>>): (g: real)
    requires |types| <= |aBases| && |types| <= |bBases| && |types| <= |results|
    ensures 0.0 <= g <= 1.0
    ensures Count(types, stateType) == 0 ==> g == 0.0
    ensures Count(types, stateType) > 0 ==>
      g * Count(types, stateType) as real == Detections(types, stateType, aBases, bBases, results) as real
  {
    var total := Count(types, stateType);
    var detections := Detections(types, stateType, aBases, bBases, results);
    DetectionsBounded(types, stateType, aBases, bBases, results);
    if total > 0 then
      Ratio(detections, total);
      detections as real / total as real
    else 0.0
  }

  /** A count over a larger positive count is a fraction in [0, 1] that
      gives the count back when multiplied by the larger one. */
  lemma Ratio(part: nat, whole: nat)
    requires part <= whole && whole > 0
    ensures 0.0 <= part as real / whole as real <= 1.0
    ensures (part as real / whole as real) * whole as real == part as real
  {
    var r := part as real / whole as real;
    assert r * whole as real == part as real;
    assert r * whole as real <= 1.0 * whole as real;
  }
}
