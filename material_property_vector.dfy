/** Assets/Runtime/Materials/MaterialPropertyVector.cs: a struct wrapping a float
    array. The struct is a value holding a reference, so copies share the array;
    operations that may replace the reference (EnsureInit and everything that
    calls it) return the updated struct. The slot count is the parameter `count`
    (MaterialPropertyCount.Count, 8 as written). */
module PropertyVectors {
  import opened Wrappers
  import opened Mathf
  import opened MaterialEnums

  datatype MaterialPropertyVector = MaterialPropertyVector(v: array?<real>)

  // ---------------------------------------------------------------------------
  // The slot sequences the operations compute.

  function Zeros(n: nat): (s: seq<real>)
    ensures |s| == n
    ensures forall i :: 0 <= i < n ==> s[i] == 0.0
  {
    seq(n, i => 0.0)
  }

  /** The slots EnsureInit leaves in place: the array if it has `count` slots,
      otherwise `count` zeros. */
  function Contents(p: MaterialPropertyVector, count: nat): (s: seq<real>)
    reads p.v
    ensures |s| == count
    ensures p.v != null && p.v.Length == count ==> s == p.v[..]
    ensures p.v == null || p.v.Length != count ==> s == Zeros(count)
  {
    if p.v != null && p.v.Length == count then p.v[..] else Zeros(count)
  }

  /** Every slot clamped into [0,1]. */
  function Clamped01(s: seq<real>): (r: seq<real>)
    ensures |r| == |s|
    ensures forall i :: 0 <= i < |s| ==> 0.0 <= r[i] <= 1.0
    ensures forall i :: 0 <= i < |s| && 0.0 <= s[i] <= 1.0 ==> r[i] == s[i]
    ensures forall i :: 0 <= i < |s| && s[i] < 0.0 ==> r[i] == 0.0
    ensures forall i :: 0 <= i < |s| && s[i] > 1.0 ==> r[i] == 1.0
  {
    seq(|s|, i requires 0 <= i < |s| => Mathf.Clamp01(s[i]))
  }

  /** A vector all of whose slots lie in [0,1]. */
  predicate InUnitRange(s: seq<real>)
  {
    forall i :: 0 <= i < |s| ==> 0.0 <= s[i] <= 1.0
  }

  /** Clamp01 is idempotent, and exactly the vectors in [0,1] are its fixed points. */
  lemma Clamped01FixedPoints(s: seq<real>)
    ensures Clamped01(Clamped01(s)) == Clamped01(s)
    ensures Clamped01(s) == s <==> InUnitRange(s)
  {
    if Clamped01(s) == s {
      forall i | 0 <= i < |s| ensures 0.0 <= s[i] <= 1.0 {
        assert Clamped01(s)[i] == s[i];
      }
    }
  }

  /** Slot-wise sum. */
  function Sum(s: seq<real>, t: seq<real>): (r: seq<real>)
    requires |s| == |t|
    ensures |r| == |s|
    ensures forall i :: 0 <= i < |s| ==> r[i] - t[i] == s[i]
  {
    seq(|s|, i requires 0 <= i < |s| => s[i] + t[i])
  }

  /** Adding the zero vector changes nothing. */
  lemma SumZeros(s: seq<real>)
    ensures Sum(s, Zeros(|s|)) == s
  {
    assert forall i :: 0 <= i < |s| ==> Sum(s, Zeros(|s|))[i] == s[i];
  }

  /** The largest slot, folding Mathf.Max from the left. */
  function SeqMax(s: seq<real>): (m: real)
    requires |s| > 0
    ensures exists i :: 0 <= i < |s| && s[i] == m
    ensures forall i :: 0 <= i < |s| ==> s[i] <= m
  {
    if |s| == 1 then s[0]
    else
      var m := SeqMax(s[..|s| - 1]);
      assert forall i :: 0 <= i < |s| - 1 ==> s[..|s| - 1][i] == s[i];
      Mathf.Max(m, s[|s| - 1])
  }

  /** The smallest slot, folding Mathf.Min from the left. */
  function SeqMin(s: seq<real>): (m: real)
    requires |s| > 0
    ensures exists i :: 0 <= i < |s| && s[i] == m
    ensures forall i :: 0 <= i < |s| ==> m <= s[i]
  {
    if |s| == 1 then s[0]
    else
      var m := SeqMin(s[..|s| - 1]);
      assert forall i :: 0 <= i < |s| - 1 ==> s[..|s| - 1][i] == s[i];
      Mathf.Min(m, s[|s| - 1])
  }

  // ---------------------------------------------------------------------------
  // The struct's members. A null array is only reached through EnsureInit;
  // the members that index directly require an array.

  /** CreateZero: a fresh array of `count` zeros. */
  method CreateZero(count: nat) returns (p: MaterialPropertyVector)
    ensures p.v != null && fresh(p.v)
    ensures p.v[..] == Zeros(count)
  {
    var a := new real[count](i => 0.0);
    p := MaterialPropertyVector(a);
  }

  /** Get(idx): the slot, or IndexOutOfRangeException outside the array. */
  method Get(p: MaterialPropertyVector, idx: int) returns (r: Result<real>)
    requires p.v != null
    ensures r.Success? <==> 0 <= idx < p.v.Length
    ensures r.Success? ==> r.value == p.v[idx]
    ensures r.Failure? ==> r.error == IndexOutOfRange
  {
    if 0 <= idx < p.v.Length {
      r := Success(p.v[idx]);
    } else {
      r := Failure(IndexOutOfRange);
    }
  }

  /** Set(idx, value): writes one slot in place; outside the array it throws
      and nothing changes. */
  method Set(p: MaterialPropertyVector, idx: int, x: real) returns (o: Outcome)
    requires p.v != null
    modifies p.v
    ensures o.Pass? <==> 0 <= idx < p.v.Length
    ensures o.Pass? ==> p.v[..] == old(p.v[..])[idx := x]
    ensures o.Fail? ==> o.error == IndexOutOfRange && p.v[..] == old(p.v[..])
  {
    if 0 <= idx < p.v.Length {
      p.v[idx] := x;
      o := Pass;
    } else {
      o := Fail(IndexOutOfRange);
    }
  }

  /** The indexer getter this[p] reads slot (int)p. */
  method GetProperty(p: MaterialPropertyVector, prop: MaterialProperty) returns (r: Result<real>)
    requires p.v != null
    ensures r.Success? <==> Ordinal(prop) < p.v.Length
    ensures r.Success? ==> r.value == p.v[Ordinal(prop)]
    ensures r.Failure? ==> r.error == IndexOutOfRange
  {
    r := Get(p, Ordinal(prop));
  }

  /** The indexer setter this[p] = value writes slot (int)p. */
  method SetProperty(p: MaterialPropertyVector, prop: MaterialProperty, x: real) returns (o: Outcome)
    requires p.v != null
    modifies p.v
    ensures o.Pass? <==> Ordinal(prop) < p.v.Length
    ensures o.Pass? ==> p.v[..] == old(p.v[..])[Ordinal(prop) := x]
    ensures o.Fail? ==> o.error == IndexOutOfRange && p.v[..] == old(p.v[..])
  {
    o := Set(p, Ordinal(prop), x);
  }

  /** The compound assignments this[p] += delta and this[p] -= delta. */
  method AddToProperty(p: MaterialPropertyVector, prop: MaterialProperty, delta: real) returns (o: Outcome)
    requires p.v != null
    modifies p.v
    ensures o.Pass? <==> Ordinal(prop) < p.v.Length
    ensures o.Pass? ==> p.v[..] == old(p.v[..])[Ordinal(prop) := old(p.v[Ordinal(prop)]) + delta]
    ensures o.Fail? ==> o.error == IndexOutOfRange && p.v[..] == old(p.v[..])
  {
    var x := GetProperty(p, prop);
    if x.Failure? {
      return Fail(x.error);
    }
    o := SetProperty(p, prop, x.value + delta);
  }

  /** With Count slots the indexer reaches every property except Manufacturability;
      with CorrectedCount slots it reaches all of them. */
  lemma IndexerRange(prop: MaterialProperty)
    ensures Ordinal(prop) < Count <==> prop != Manufacturability
    ensures Ordinal(prop) < CorrectedCount
  {}

  /** EnsureInit: keeps an array of `count` slots, otherwise replaces it by zeros. */
  method EnsureInit(p: MaterialPropertyVector, count: nat) returns (q: MaterialPropertyVector)
    ensures q.v != null && q.v.Length == count
    ensures q.v[..] == Contents(p, count)
    ensures p.v != null && p.v.Length == count ==> q == p
    ensures p.v == null || p.v.Length != count ==> fresh(q.v)
  {
    if p.v == null || p.v.Length != count {
      q := CreateZero(count);
    } else {
      q := p;
    }
  }

  /** Clamp01: every slot clamped in place. */
  method Clamp01(p: MaterialPropertyVector, count: nat) returns (q: MaterialPropertyVector)
    modifies p.v
    ensures q.v != null && q.v.Length == count
    ensures q.v[..] == Clamped01(old(Contents(p, count)))
    ensures p.v != null && p.v.Length == count ==> q == p
    ensures p.v == null || p.v.Length != count ==> fresh(q.v)
  {
    q := EnsureInit(p, count);
    var a := q.v;
    ghost var s := a[..];
    var i := 0;
    while i < a.Length
      invariant 0 <= i <= a.Length
      invariant forall k :: 0 <= k < i ==> a[k] == Mathf.Clamp01(s[k])
      invariant forall k :: i <= k < a.Length ==> a[k] == s[k]
    {
      a[i] := Mathf.Clamp01(a[i]);
      i := i + 1;
    }
    assert a[..] == Clamped01(s);
  }

  /** Add(other): this[i] += other[i] in place. `other` is a copy, so its own
      EnsureInit never reaches the caller; when the two share an array the sum
      still uses the old value of each slot. */
  method Add(p: MaterialPropertyVector, other: MaterialPropertyVector, count: nat) returns (q: MaterialPropertyVector)
    modifies p.v
    ensures q.v != null && q.v.Length == count
    ensures q.v[..] == Sum(old(Contents(p, count)), old(Contents(other, count)))
    ensures p.v != null && p.v.Length == count ==> q == p
    ensures p.v == null || p.v.Length != count ==> fresh(q.v)
  {
    ghost var t := Contents(other, count);
    q := EnsureInit(p, count);
    var o := EnsureInit(other, count);
    var a := q.v;
    var b := o.v;
    ghost var s := a[..];
    var i := 0;
    while i < a.Length
      invariant 0 <= i <= a.Length
      invariant forall k :: 0 <= k < i ==> a[k] == s[k] + t[k]
      invariant forall k :: i <= k < a.Length ==> a[k] == s[k]
      invariant forall k :: i <= k < a.Length ==> b[k] == t[k]
    {
      a[i] := a[i] + b[i];
      i := i + 1;
    }
    assert a[..] == Sum(s, t);
  }

  /** Max: the running Mathf.Max over the slots, starting at slot 0. */
  method Max(p: MaterialPropertyVector, count: nat) returns (q: MaterialPropertyVector, m: real)
    requires count > 0
    ensures q.v != null && q.v[..] == old(Contents(p, count))
    ensures m == SeqMax(q.v[..])
    ensures p.v != null && p.v.Length == count ==> q == p
    ensures p.v == null || p.v.Length != count ==> fresh(q.v)
  {
    q := EnsureInit(p, count);
    var a := q.v;
    m := a[0];
    var i := 1;
    while i < a.Length
      invariant 1 <= i <= a.Length
      invariant m == SeqMax(a[..i])
    {
      assert a[..i + 1][..i] == a[..i];
      m := Mathf.Max(m, a[i]);
      i := i + 1;
    }
    assert a[..i] == a[..];
  }

  /** Min: the running Mathf.Min over the slots, starting at slot 0. */
  method Min(p: MaterialPropertyVector, count: nat) returns (q: MaterialPropertyVector, m: real)
    requires count > 0
    ensures q.v != null && q.v[..] == old(Contents(p, count))
    ensures m == SeqMin(q.v[..])
    ensures p.v != null && p.v.Length == count ==> q == p
    ensures p.v == null || p.v.Length != count ==> fresh(q.v)
  {
    q := EnsureInit(p, count);
    var a := q.v;
    m := a[0];
    var i := 1;
    while i < a.Length
      invariant 1 <= i <= a.Length
      invariant m == SeqMin(a[..i])
    {
      assert a[..i + 1][..i] == a[..i];
      m := Mathf.Min(m, a[i]);
      i := i + 1;
    }
    assert a[..i] == a[..];
  }
}
