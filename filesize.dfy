/**
 * Human-readable file sizes (`format_file_size`): divide by 1024 while the
 * value is at least 1024 and a larger unit is left. The text formatting of
 * the scaled value (one decimal place) is not modelled.
 */
module FileSize {

  const SizeNames: seq<string> := ["B", "KB", "MB", "GB"]
  /** Index of the largest unit. */
  const LastUnit: nat := |SizeNames| - 1

  /** The result: the literal `0B`, or a scaled value with the index of its unit in `SizeNames`. */
  datatype FormattedSize = ZeroBytes | Scaled(value: real, unit: nat)

  function Power1024(n: nat): (r: real)
    ensures r >= 1.0
  {
    if n == 0 then 1.0 else 1024.0 * Power1024(n - 1)
  }

  /**
   * What a scaled result promises: the value times 1024 to the power of the
   * unit index is the input, the index is a valid unit, and the value was
   * divided only while it was at least 1024 and stopped either below 1024
   * or at the largest unit.
   */
  predicate IsScaling(size: int, value: real, unit: nat)
  {
    && unit <= LastUnit
    && value * Power1024(unit) == size as real
    && (value < 1024.0 || unit == LastUnit)
    && (unit > 0 ==> value >= 1.0)
  }

  method FormatFileSize(sizeBytes: int) returns (r: FormattedSize)
    ensures sizeBytes == 0 <==> r == ZeroBytes
    ensures r.Scaled? ==> IsScaling(sizeBytes, r.value, r.unit)
  {
    if sizeBytes == 0 {
      return ZeroBytes;
    }
    var size := sizeBytes as real;
    var i: nat := 0;
    while size >= 1024.0 && i < |SizeNames| - 1
      invariant i <= LastUnit
      invariant size * Power1024(i) == sizeBytes as real
      invariant i > 0 ==> size >= 1.0
    {
      ghost var before := size;
      size := size / 1024.0;
      assert size * 1024.0 == before;
      i := i + 1;
    }
    return Scaled(size, i);
  }

  lemma {:induction false} PowerMonotone(a: nat, b: nat)
    requires a <= b
    ensures Power1024(a) <= Power1024(b)
  {
    if a < b {
      PowerMonotone(a, b - 1);
    }
  }

  /** Powers of 1024 are ordered as their exponents. */
  lemma PowerOrder(a: nat, b: nat)
    ensures Power1024(a) < Power1024(b) ==> a < b
  {
    if b <= a {
      PowerMonotone(b, a);
    }
  }

  /**
   * The unit chosen is the right one: a scaled size is at least 1024 to the
   * power of its unit index (unless that index is 0), and below the next
   * power (unless the unit is the largest).
   */
  lemma ScalingBounds(size: int, value: real, unit: nat)
    requires IsScaling(size, value, unit)
    ensures unit > 0 ==> Power1024(unit) <= size as real
    ensures unit < LastUnit ==> size as real < Power1024(unit + 1)
  {
    var p := Power1024(unit);
    assert value * p == size as real;
    if unit > 0 {
      ScaleUp(value, 1.0, p);
      assert 1.0 * p == p;
      assert p <= size as real;
    }
    if unit < LastUnit {
      ScaleStrict(value, 1024.0, p);
      assert Power1024(unit + 1) == 1024.0 * p;
    }
  }

  /**
   * The scaling is unique: two results that both meet `IsScaling` for the
   * same size are the same, so the method's contract determines its output.
   */
  lemma ScalingUnique(size: int, v1: real, u1: nat, v2: real, u2: nat)
    requires IsScaling(size, v1, u1) && IsScaling(size, v2, u2)
    ensures u1 == u2 && v1 == v2
  {
    UnitNotAbove(size, v1, u1, v2, u2);
    UnitNotAbove(size, v2, u2, v1, u1);
    SameUnitSameValue(v1, v2, Power1024(u1), size as real);
  }

  /** No valid scaling of a size has a larger unit index than another valid scaling of it. */
  lemma UnitNotAbove(size: int, v1: real, u1: nat, v2: real, u2: nat)
    requires IsScaling(size, v1, u1) && IsScaling(size, v2, u2)
    ensures u2 <= u1
  {
    ScalingBounds(size, v1, u1);
    ScalingBounds(size, v2, u2);
    PowerOrder(u2, u1 + 1);
  }

  lemma SameUnitSameValue(v1: real, v2: real, p: real, size: real)
    requires p >= 1.0 && v1 * p == size && v2 * p == size
    ensures v1 == v2
  {
    assert v1 == size / p;
    assert v2 == size / p;
  }

  lemma ScaleUp(a: real, b: real, k: real)
    requires a >= b && k >= 0.0
    ensures a * k >= b * k
  {
  }

  lemma ScaleStrict(a: real, b: real, k: real)
    requires a < b && k > 0.0
    ensures a * k < b * k
  {
  }
}
