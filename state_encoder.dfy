/** The state encoder of the Q-learning enemy (`QLiteAI.GetStateKey`): the distance
    to the player and the signed bearing of the player are bucketed and the two
    bucket numbers are written as the table key "d_a". Distance and bearing are
    inputs: the vector geometry that produces them is not modelled. */
module StateEncoder {
  import opened Common

  /** Number of distance buckets minus one: everything from 20 units on is bucket 10. */
  const MaxDistanceBucket := 10

  /** `Mathf.Clamp(Mathf.FloorToInt(dist / 2f), 0, 10)`: two units per bucket. */
  function DistanceBucket(dist: real): (d: int)
    ensures 0 <= d <= MaxDistanceBucket
    ensures 0.0 <= dist < 20.0 ==> 2.0 * d as real <= dist < 2.0 * d as real + 2.0
    ensures dist >= 20.0 ==> d == MaxDistanceBucket
    ensures dist < 2.0 ==> d == 0
  {
    ClampInt((dist / 2.0).Floor, 0, MaxDistanceBucket)
  }

  /** A greater distance never falls in a nearer bucket. */
  lemma DistanceBucketMonotone(near: real, far: real)
    requires near <= far
    ensures DistanceBucket(near) <= DistanceBucket(far)
  {
  }

  /** `Mathf.FloorToInt((angle + 180f) / 90f)`: quarter turns counted from -180 degrees. */
  function AngleBucket(angle: real): (a: int)
    ensures 90.0 * a as real - 180.0 <= angle < 90.0 * a as real - 90.0
    ensures -180.0 <= angle < 180.0 ==> 0 <= a <= 3
    ensures angle == 180.0 ==> a == 4
  {
    ((angle + 180.0) / 90.0).Floor
  }

  /** The four sectors partition [-180, 180): sector `k` is exactly
      [-180 + 90k, -90 + 90k). */
  lemma AngleSectors(angle: real, k: int)
    requires 0 <= k <= 3
    ensures AngleBucket(angle) == k <==> -180.0 + 90.0 * k as real <= angle < -90.0 + 90.0 * k as real
  {
  }

  // ---- decimal text of an int, as C# string interpolation writes it ----

  predicate IsDigit(c: char) {
    '0' <= c <= '9'
  }

  predicate AllDigits(s: string) {
    forall i :: 0 <= i < |s| ==> IsDigit(s[i])
  }

  function DigitChar(d: nat): (c: char)
    requires d < 10
    ensures IsDigit(c) && c as int - '0' as int == d
  {
    ('0' as int + d) as char
  }

  /** Decimal digits of `n`, most significant first, no leading zeros. */
  function NatToString(n: nat): string
    decreases n
  {
    if n < 10 then [DigitChar(n)] else NatToString(n / 10) + [DigitChar(n % 10)]
  }

  /** `n.ToString()`: a minus sign before the digits of a negative number. */
  function IntToString(n: int): string {
    if n < 0 then "-" + NatToString(-n) else NatToString(n)
  }

  /** The number a string of decimal digits denotes. */
  function DigitsValue(s: string): nat
    requires AllDigits(s)
    decreases |s|
  {
    if s == [] then 0
    else DigitsValue(s[..|s| - 1]) * 10 + (s[|s| - 1] as int - '0' as int)
  }

  /** Reads back what `IntToString` writes: an optional minus sign, then digits. */
  function ParseInt(s: string): Option<int> {
    if |s| > 1 && s[0] == '-' && AllDigits(s[1..]) then Some(-(DigitsValue(s[1..]) as int))
    else if |s| > 0 && AllDigits(s) then Some(DigitsValue(s) as int)
    else None
  }

  /** Position of the first `c` in `s`, or `|s|` when there is none. */
  function IndexOf(s: string, c: char): (i: nat)
    ensures i <= |s|
    ensures i < |s| ==> s[i] == c
    ensures forall j :: 0 <= j < i ==> s[j] != c
    decreases |s|
  {
    if s == [] then 0 else if s[0] == c then 0 else 1 + IndexOf(s[1..], c)
  }

  /** The table key `$"{distBucket}_{angleBucket}"`. */
  function StateKey(distBucket: int, angleBucket: int): string {
    IntToString(distBucket) + "_" + IntToString(angleBucket)
  }

  /** Splits a key at its first underscore and reads both bucket numbers. */
  function ParseStateKey(key: string): Option<(int, int)> {
    var u := IndexOf(key, '_');
    if u == |key| then None
    else match (ParseInt(key[..u]), ParseInt(key[u + 1..]))
      case (Some(d), Some(a)) => Some((d, a))
      case _ => None
  }

  lemma {:induction false} NatToStringDigits(n: nat)
    ensures |NatToString(n)| > 0 && AllDigits(NatToString(n))
    ensures DigitsValue(NatToString(n)) == n
    decreases n
  {
    if n >= 10 {
      NatToStringDigits(n / 10);
      var s := NatToString(n);
      assert s[..|s| - 1] == NatToString(n / 10);
    }
  }

  /** Writing an int and reading it back gives the int, and the text has no underscore. */
  lemma IntToStringRoundTrip(n: int)
    ensures ParseInt(IntToString(n)) == Some(n)
    ensures IndexOf(IntToString(n), '_') == |IntToString(n)|
  {
    var s := IntToString(n);
    if n < 0 {
      NatToStringDigits(-n);
      assert s[1..] == NatToString(-n);
      assert forall i :: 0 <= i < |s| ==> s[i] != '_' by {
        forall i | 0 <= i < |s| ensures s[i] != '_' {
          if i > 0 { assert s[i] == NatToString(-n)[i - 1]; }
        }
      }
    } else {
      NatToStringDigits(n);
      assert !(|s| > 1 && s[0] == '-');
    }
    IndexOfAbsent(s, '_');
  }

  lemma {:induction false} IndexOfAbsent(s: string, c: char)
    requires forall i :: 0 <= i < |s| ==> s[i] != c
    ensures IndexOf(s, c) == |s|
    decreases |s|
  {
    if s != [] {
      IndexOfAbsent(s[1..], c);
    }
  }

  /** The key encodes both buckets: reading a key back yields the buckets it was
      built from. */
  lemma StateKeyRoundTrip(distBucket: int, angleBucket: int)
    ensures ParseStateKey(StateKey(distBucket, angleBucket)) == Some((distBucket, angleBucket))
  {
    var ds, as_ := IntToString(distBucket), IntToString(angleBucket);
    var key := StateKey(distBucket, angleBucket);
    IntToStringRoundTrip(distBucket);
    IntToStringRoundTrip(angleBucket);
    assert key[..|ds|] == ds;
    assert key[|ds|] == '_';
    assert forall j :: 0 <= j < |ds| ==> key[j] != '_' by {
      forall j | 0 <= j < |ds| ensures key[j] != '_' {
        assert key[j] == ds[j];
        assert IndexOf(ds, '_') == |ds|;
      }
    }
    IndexOfFirst(key, '_', |ds|);
    assert key[|ds| + 1..] == as_;
  }

  lemma IndexOfFirst(s: string, c: char, i: nat)
    requires i < |s| && s[i] == c
    requires forall j :: 0 <= j < i ==> s[j] != c
    ensures IndexOf(s, c) == i
  {
  }

  /** Different bucket pairs never share a key, so the table keeps them apart. */
  lemma StateKeyInjective(d1: int, a1: int, d2: int, a2: int)
    requires StateKey(d1, a1) == StateKey(d2, a2)
    ensures d1 == d2 && a1 == a2
  {
    StateKeyRoundTrip(d1, a1);
    StateKeyRoundTrip(d2, a2);
  }

  /** `GetStateKey`: the key of the distance bucket and the bearing bucket. */
  function GetStateKey(dist: real, angle: real): (key: string)
    ensures ParseStateKey(key) == Some((DistanceBucket(dist), AngleBucket(angle)))
  {
    StateKeyRoundTrip(DistanceBucket(dist), AngleBucket(angle));
    StateKey(DistanceBucket(dist), AngleBucket(angle))
  }

  /** Two geometries share a key exactly when both their buckets agree. */
  lemma SameKeyIffSameBuckets(dist1: real, angle1: real, dist2: real, angle2: real)
    ensures GetStateKey(dist1, angle1) == GetStateKey(dist2, angle2)
        <==> DistanceBucket(dist1) == DistanceBucket(dist2) && AngleBucket(angle1) == AngleBucket(angle2)
  {
    if GetStateKey(dist1, angle1) == GetStateKey(dist2, angle2) {
      StateKeyInjective(DistanceBucket(dist1), AngleBucket(angle1), DistanceBucket(dist2), AngleBucket(angle2));
    }
  }
}
