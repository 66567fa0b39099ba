/** Assets/Scripts/Data/TierRulesT0.cs: the three Tier-0 passes that rewrite a
    property vector in place (taken by `ref`). Each pass is a method over the
    vector's array, specified by a function on the slot sequence. */
module TierRules {
  import opened Mathf
  import opened MaterialEnums
  import opened PropertyVectors

  const HardCap: real := 0.80
  const DominantBoost: real := 0.10
  const WeaknessPenalty: real := 0.10
  const DominantThreshold: real := 0.85
  const WeaknessRequiredMax: real := 0.35
  const CapDensityMin: real := 0.10
  const CapDensityMax: real := 0.90

  /** The slot i with (MaterialProperty)i == Density. */
  const DensitySlot: nat := Ordinal(Density)

  // ---------------------------------------------------------------------------
  // Hard caps

  /** The value ApplyHardCaps stores in slot i. */
  function CappedSlot(i: nat, x: real): real
  {
    Mathf.Clamp01(if i == DensitySlot then Clamp(x, CapDensityMin, CapDensityMax) else Mathf.Min(x, HardCap))
  }

  /** The bounds the hard caps establish: every slot in [0,1], Density in
      [0.10,0.90], every other slot at most 0.80. */
  predicate WithinCaps(s: seq<real>)
  {
    forall i :: 0 <= i < |s| ==>
      && 0.0 <= s[i] <= 1.0
      && (i == DensitySlot ==> CapDensityMin <= s[i] <= CapDensityMax)
      && (i != DensitySlot ==> s[i] <= HardCap)
  }

  /** Some slot is weak enough to count as the material's weakness. */
  predicate HasWeakness(s: seq<real>)
  {
    exists i :: 0 <= i < |s| && s[i] <= WeaknessRequiredMax
  }

  function HardCapped(s: seq<real>): (r: seq<real>)
    ensures |r| == |s|
    ensures WithinCaps(r)
    ensures forall i :: 0 <= i < |s| && i != DensitySlot && 0.0 <= s[i] <= HardCap ==> r[i] == s[i]
    ensures forall i :: 0 <= i < |s| && CapDensityMin <= s[i] <= CapDensityMax && i == DensitySlot ==> r[i] == s[i]
  {
    seq(|s|, i requires 0 <= i < |s| => CappedSlot(i, s[i]))
  }

  /** A vector already within its caps is left as it is, so the pass is idempotent. */
  lemma HardCapsFixedPoints(s: seq<real>)
    ensures HardCapped(s) == s <==> WithinCaps(s)
    ensures HardCapped(HardCapped(s)) == HardCapped(s)
  {
    if HardCapped(s) == s {
      assert WithinCaps(s);
    }
  }

  /** ApplyHardCaps(ref v). */
  method ApplyHardCaps(p: MaterialPropertyVector, count: nat) returns (q: MaterialPropertyVector)
    modifies p.v
    ensures q.v != null && q.v.Length == count
    ensures q.v[..] == HardCapped(old(Contents(p, count)))
    ensures p.v != null && p.v.Length == count ==> q == p
    ensures p.v == null || p.v.Length != count ==> fresh(q.v)
  {
    q := EnsureInit(p, count);
    var a := q.v;
    ghost var s := a[..];
    var i := 0;
    while i < count
      invariant 0 <= i <= count
      invariant forall k :: 0 <= k < i ==> a[k] == CappedSlot(k, s[k])
      invariant forall k :: i <= k < count ==> a[k] == s[k]
    {
      var x := a[i];
      if i == DensitySlot {
        x := Clamp(x, CapDensityMin, CapDensityMax);
      } else {
        x := Mathf.Min(x, HardCap);
      }
      a[i] := Mathf.Clamp01(x);
      i := i + 1;
    }
    assert a[..] == HardCapped(s);
  }

  // ---------------------------------------------------------------------------
  // One dominant property

  /** The index the argmax loop settles on: the first slot of maximal value. */
  function FirstMaxIndex(s: seq<real>): (k: nat)
    requires |s| > 0
    ensures k < |s|
    ensures forall i :: 0 <= i < |s| ==> s[i] <= s[k]
    ensures forall i :: 0 <= i < k ==> s[i] < s[k]
  {
    if |s| == 1 then 0
    else
      var k := FirstMaxIndex(s[..|s| - 1]);
      assert forall i :: 0 <= i < |s| - 1 ==> s[..|s| - 1][i] == s[i];
      if s[|s| - 1] > s[k] then |s| - 1 else k
  }

  /** FirstMaxIndex is the only slot that is a maximum with nothing as large before it. */
  lemma FirstMaxIndexUnique(s: seq<real>, k: nat)
    requires k < |s|
    requires forall i :: 0 <= i < |s| ==> s[i] <= s[k]
    requires forall i :: 0 <= i < k ==> s[i] < s[k]
    ensures FirstMaxIndex(s) == k
  {}

  /** How many slots exceed t. */
  function CountAbove(s: seq<real>, t: real): (n: nat)
    ensures n <= |s|
  {
    if s == [] then 0
    else CountAbove(s[..|s| - 1], t) + (if s[|s| - 1] > t then 1 else 0)
  }

  /** No two distinct slots exceed t. */
  predicate AtMostOneAbove(s: seq<real>, t: real)
  {
    forall i, j :: 0 <= i < |s| && 0 <= j < |s| && s[i] > t && s[j] > t ==> i == j
  }

  /** The count loop and the "at most one" reading agree. */
  lemma {:induction false} CountAboveAtMostOne(s: seq<real>, t: real)
    ensures CountAbove(s, t) <= 1 <==> AtMostOneAbove(s, t)
    ensures CountAbove(s, t) == 0 <==> forall i :: 0 <= i < |s| ==> s[i] <= t
    decreases |s|
  {
    if s != [] {
      var init := s[..|s| - 1];
      CountAboveAtMostOne(init, t);
      assert forall i :: 0 <= i < |init| ==> init[i] == s[i];
      if s[|s| - 1] > t && CountAbove(init, t) > 0 {
        var i :| 0 <= i < |init| && init[i] > t;
        assert s[i] > t && s[|s| - 1] > t && i != |s| - 1;
      }
    }
  }

  /** The vector EnforceOneDominant leaves: unchanged when at most one slot
      exceeds the threshold, otherwise every slot above it except the first
      maximum is lowered to the threshold. */
  function OneDominant(s: seq<real>): (r: seq<real>)
    requires |s| > 0
    ensures |r| == |s|
    ensures CountAbove(s, DominantThreshold) <= 1 ==> r == s
    ensures r[FirstMaxIndex(s)] == s[FirstMaxIndex(s)]
    ensures forall i :: 0 <= i < |s| && s[i] <= DominantThreshold ==> r[i] == s[i]
    ensures CountAbove(s, DominantThreshold) > 1 ==>
              forall i :: 0 <= i < |s| && s[i] > DominantThreshold && i != FirstMaxIndex(s) ==> r[i] == DominantThreshold
  {
    if CountAbove(s, DominantThreshold) <= 1 then s
    else
      var k := FirstMaxIndex(s);
      seq(|s|, i requires 0 <= i < |s| => if i != k && s[i] > DominantThreshold then DominantThreshold else s[i])
  }

  /** After the pass at most one slot exceeds the threshold. */
  lemma OneDominantLeavesOne(s: seq<real>)
    requires |s| > 0
    ensures AtMostOneAbove(OneDominant(s), DominantThreshold)
    ensures CountAbove(OneDominant(s), DominantThreshold) <= 1
  {
    CountAboveAtMostOne(s, DominantThreshold);
    CountAboveAtMostOne(OneDominant(s), DominantThreshold);
  }

  /** The argmax loop: a strict `>` keeps the earliest maximum. */
  method IndexOfMax(a: array<real>) returns (maxIdx: nat)
    requires a.Length > 0
    ensures maxIdx == FirstMaxIndex(a[..])
  {
    maxIdx := 0;
    var maxVal := a[0];
    var i := 1;
    while i < a.Length
      invariant 1 <= i <= a.Length
      invariant maxIdx == FirstMaxIndex(a[..i]) && maxVal == a[maxIdx]
    {
      assert a[..i + 1][..i] == a[..i];
      var x := a[i];
      if x > maxVal {
        maxVal := x;
        maxIdx := i;
      }
      i := i + 1;
    }
    assert a[..i] == a[..];
  }

  /** The counting loop. */
  method CountAboveIn(a: array<real>, t: real) returns (n: nat)
    ensures n == CountAbove(a[..], t)
  {
    n := 0;
    var i := 0;
    while i < a.Length
      invariant 0 <= i <= a.Length
      invariant n == CountAbove(a[..i], t)
    {
      assert a[..i + 1][..i] == a[..i];
      if a[i] > t {
        n := n + 1;
      }
      i := i + 1;
    }
    assert a[..i] == a[..];
  }

  /** EnforceOneDominant(ref v). */
  method EnforceOneDominant(p: MaterialPropertyVector, count: nat) returns (q: MaterialPropertyVector)
    requires count > 0
    modifies p.v
    ensures q.v != null && q.v.Length == count
    ensures q.v[..] == OneDominant(old(Contents(p, count)))
    ensures p.v != null && p.v.Length == count ==> q == p
    ensures p.v == null || p.v.Length != count ==> fresh(q.v)
  {
    q := EnsureInit(p, count);
    var a := q.v;
    ghost var s := a[..];
    var maxIdx := IndexOfMax(a);
    var countAbove := CountAboveIn(a, DominantThreshold);
    if countAbove <= 1 {
      return;
    }
    ghost var r := OneDominant(s);
    assert forall k :: 0 <= k < count ==> r[k] == if k != maxIdx && s[k] > DominantThreshold then DominantThreshold else s[k];
    var i := 0;
    while i < count
      invariant 0 <= i <= count
      invariant forall k :: 0 <= k < i ==> a[k] == r[k]
      invariant forall k :: i <= k < count ==> a[k] == s[k]
    {
      if i != maxIdx {
        var x := a[i];
        if x > DominantThreshold {
          a[i] := DominantThreshold;
        }
      }
      i := i + 1;
    }
    assert a[..] == r;
  }

  // ---------------------------------------------------------------------------
  // Guaranteed weakness

  /** The index the argmin loop settles on: the first slot of minimal value. */
  function FirstMinIndex(s: seq<real>): (k: nat)
    requires |s| > 0
    ensures k < |s|
    ensures forall i :: 0 <= i < |s| ==> s[k] <= s[i]
    ensures forall i :: 0 <= i < k ==> s[k] < s[i]
  {
    if |s| == 1 then 0
    else
      var k := FirstMinIndex(s[..|s| - 1]);
      assert forall i :: 0 <= i < |s| - 1 ==> s[..|s| - 1][i] == s[i];
      if s[|s| - 1] < s[k] then |s| - 1 else k
  }

  /** FirstMinIndex is the only slot that is a minimum with nothing as small before it. */
  lemma FirstMinIndexUnique(s: seq<real>, k: nat)
    requires k < |s|
    requires forall i :: 0 <= i < |s| ==> s[k] <= s[i]
    requires forall i :: 0 <= i < k ==> s[k] < s[i]
    ensures FirstMinIndex(s) == k
  {}

  /** The vector EnsureAWeakness leaves: unchanged when some slot is already at
      most 0.35, otherwise the first minimal slot set to max(0, 0.35). */
  function WithWeakness(s: seq<real>): (r: seq<real>)
    requires |s| > 0
    ensures |r| == |s|
    ensures HasWeakness(r)
    ensures SeqMin(s) <= WeaknessRequiredMax ==> r == s
    ensures SeqMin(s) > WeaknessRequiredMax ==> r == s[FirstMinIndex(s) := WeaknessRequiredMax]
  {
    if SeqMin(s) <= WeaknessRequiredMax then s
    else
      var r := s[FirstMinIndex(s) := Mathf.Max(0.0, WeaknessRequiredMax)];
      assert r[FirstMinIndex(s)] <= WeaknessRequiredMax;
      r
  }

  /** The running-minimum loop. */
  method SeqMinIn(a: array<real>) returns (minVal: real)
    requires a.Length > 0
    ensures minVal == SeqMin(a[..])
  {
    minVal := a[0];
    var i := 1;
    while i < a.Length
      invariant 1 <= i <= a.Length
      invariant minVal == SeqMin(a[..i])
    {
      assert a[..i + 1][..i] == a[..i];
      minVal := Mathf.Min(minVal, a[i]);
      i := i + 1;
    }
    assert a[..i] == a[..];
  }

  /** The argmin loop: a strict `<` keeps the earliest minimum. */
  method IndexOfMin(a: array<real>) returns (minIdx: nat)
    requires a.Length > 0
    ensures minIdx == FirstMinIndex(a[..])
  {
    minIdx := 0;
    var mv := a[0];
    var i := 1;
    while i < a.Length
      invariant 1 <= i <= a.Length
      invariant minIdx == FirstMinIndex(a[..i]) && mv == a[minIdx]
    {
      assert a[..i + 1][..i] == a[..i];
      var x := a[i];
      if x < mv {
        mv := x;
        minIdx := i;
      }
      i := i + 1;
    }
    assert a[..i] == a[..];
  }

  /** EnsureAWeakness(ref v). */
  method EnsureAWeakness(p: MaterialPropertyVector, count: nat) returns (q: MaterialPropertyVector)
    requires count > 0
    modifies p.v
    ensures q.v != null && q.v.Length == count
    ensures q.v[..] == WithWeakness(old(Contents(p, count)))
    ensures p.v != null && p.v.Length == count ==> q == p
    ensures p.v == null || p.v.Length != count ==> fresh(q.v)
  {
    q := EnsureInit(p, count);
    var a := q.v;
    ghost var s := a[..];
    var minVal := SeqMinIn(a);
    if minVal <= WeaknessRequiredMax {
      return;
    }
    var minIdx := IndexOfMin(a);
    a[minIdx] := Mathf.Max(0.0, WeaknessRequiredMax);
  }

  // ---------------------------------------------------------------------------
  // How the passes compose in the generator

  /** On a capped vector only Density can exceed 0.85, so EnforceOneDominant
      changes nothing; EnsureAWeakness keeps every cap bound. */
  lemma CapsThenRules(s: seq<real>)
    requires |s| > 0 && WithinCaps(s)
    ensures OneDominant(s) == s
    ensures WithinCaps(WithWeakness(s))
  {
    assert AtMostOneAbove(s, DominantThreshold) by {
      forall i, j | 0 <= i < |s| && 0 <= j < |s| && s[i] > DominantThreshold && s[j] > DominantThreshold
        ensures i == j
      {
        assert i == DensitySlot && j == DensitySlot;
      }
    }
    CountAboveAtMostOne(s, DominantThreshold);
  }

  /** The end of the generator's rule chain: Clamp01, hard caps, one dominant,
      weakness. The result is within the caps and has a weak slot. */
  lemma RuleChain(s: seq<real>)
    requires |s| > 0
    ensures var r := WithWeakness(OneDominant(HardCapped(Clamped01(s))));
            WithinCaps(r) && HasWeakness(r)
  {
    CapsThenRules(HardCapped(Clamped01(s)));
  }
}
