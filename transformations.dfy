/** The transformation selector of ImageOffloader.

    XRCpuImage.Transformation is a flags enum over a 32-bit integer, so a value
    is a bit pattern and MirrorX | MirrorY is the combination of both mirrors.
    CycleTransformation replaces the current value by Next(current); this module
    gives that transition and proves that it walks a cycle of period four. */
module Transformations {

  type Transformation = bv32

  const None: Transformation := 0
  const MirrorX: Transformation := 1
  const MirrorY: Transformation := 2
  const MirrorBoth: Transformation := MirrorX | MirrorY

  /** The selections CycleTransformation steps through, in the order it visits them. */
  const Cycle: seq<Transformation> := [None, MirrorX, MirrorY, MirrorBoth]

  /** The value m_Transformation holds before the first cycle. */
  const Initial: Transformation := MirrorY

  predicate InCycle(t: Transformation) {
    t in Cycle
  }

  /** The switch expression of CycleTransformation: three explicit arms and a
      catch-all arm to None. Every value, in the cycle or not, moves to a
      member of the cycle, and no value is a fixed point. */
  function Next(t: Transformation): (r: Transformation)
    ensures InCycle(r)
    ensures r != t
  {
    if t == None then MirrorX
    else if t == MirrorX then MirrorY
    else if t == MirrorY then MirrorX | MirrorY
    else None
  }

  /** The selection after n presses of the transformation button, starting from t. */
  function Iterate(t: Transformation, n: nat): Transformation
    decreases n
  {
    if n == 0 then t else Iterate(Next(t), n - 1)
  }

  /** The position of a cycle member in Cycle. */
  function IndexOf(t: Transformation): (i: nat)
    requires InCycle(t)
    ensures i < |Cycle| && Cycle[i] == t
  {
    if t == None then 0
    else if t == MirrorX then 1
    else if t == MirrorY then 2
    else 3
  }

  /** The three explicit arms of the switch. */
  lemma NextArms()
    ensures Next(None) == MirrorX
    ensures Next(MirrorX) == MirrorY
    ensures Next(MirrorY) == MirrorX | MirrorY
  {
  }

  /** The catch-all arm: every value other than None, MirrorX and MirrorY,
      MirrorX | MirrorY among them, goes to None. */
  lemma NextCatchAll(t: Transformation)
    requires t != None && t != MirrorX && t != MirrorY
    ensures Next(t) == None
  {
  }

  /** The switch agrees with a lookup table: on the cycle it is "the next entry". */
  lemma NextAlongCycle(i: nat)
    requires i < |Cycle|
    ensures Next(Cycle[i]) == Cycle[(i + 1) % |Cycle|]
  {
  }

  /** The four members of the cycle are exactly the combinations of the two
      mirror flags, each listed once. */
  lemma CycleIsMirrorCombinations(t: Transformation)
    ensures InCycle(t) <==> t & !MirrorBoth == 0
    ensures forall i, j :: 0 <= i < j < |Cycle| ==> Cycle[i] != Cycle[j]
  {
  }

  /** Pressing n more times adds n to the position in the cycle, modulo four. */
  lemma {:induction false} IterateFromCycle(i: nat, n: nat)
    requires i < |Cycle|
    ensures Iterate(Cycle[i], n) == Cycle[(i + n) % |Cycle|]
    decreases n
  {
    if n > 0 {
      NextAlongCycle(i);
      var j := (i + 1) % |Cycle|;
      IterateFromCycle(j, n - 1);
      assert (j + (n - 1)) % |Cycle| == (i + n) % |Cycle|;
    }
  }

  /** One more press is one more application of Next after the others. */
  lemma {:induction false} IterateStep(t: Transformation, n: nat)
    ensures Iterate(t, n + 1) == Next(Iterate(t, n))
    decreases n
  {
    if n > 0 {
      IterateStep(Next(t), n - 1);
    }
  }

  /** The selector is never stuck: every press changes the value. */
  lemma NeverStuck(t: Transformation, n: nat)
    ensures Iterate(t, n + 1) != Iterate(t, n)
  {
    IterateStep(t, n);
  }

  /** After at least one press the value is a member of the cycle, whatever
      value the field held before. */
  lemma {:induction false} EntersCycle(t: Transformation, n: nat)
    requires n >= 1
    ensures InCycle(Iterate(t, n))
    decreases n
  {
    if n > 1 {
      EntersCycle(Next(t), n - 1);
    }
  }

  /** On the cycle, four presses return to the same value ... */
  lemma Period(t: Transformation, n: nat)
    requires InCycle(t)
    ensures Iterate(t, n + 4) == Iterate(t, n)
    ensures Iterate(t, 4) == t
  {
    var i := IndexOf(t);
    IterateFromCycle(i, n + 4);
    IterateFromCycle(i, n);
    IterateFromCycle(i, 4);
  }

  /** ... and no fewer presses do. */
  lemma ExactPeriod(t: Transformation, k: nat)
    requires InCycle(t)
    requires 0 < k < 4
    ensures Iterate(t, k) != t
  {
    var i := IndexOf(t);
    IterateFromCycle(i, k);
    CycleIsMirrorCombinations(t);
  }

  /** From any starting value, the sequence of selections repeats with period
      four from the first press on. */
  lemma EventuallyPeriodic(t: Transformation, n: nat)
    requires n >= 1
    ensures Iterate(t, n + 4) == Iterate(t, n)
  {
    Period(Next(t), n - 1);
  }

  /** Starting from the field's initial MirrorY, the first press selects
      MirrorX | MirrorY and the second None. */
  lemma InitialSequence()
    ensures Iterate(Initial, 1) == MirrorX | MirrorY
    ensures Iterate(Initial, 2) == None
  {
  }
}
