/**
 * The human-readable forms of byte counts and frequencies: the number scaled into the unit
 * the formatter picks, with the unit. Rendering the number to one decimal is not modelled.
 */
module Formatters {

  datatype ByteUnit = B | KB | MB | GB | TB | PB

  datatype FrequencyUnit = Hz | KHz | MHz | GHz

  /** A scaled amount and the unit it is written in. */
  datatype Quantity<U> = Quantity(value: real, unit: U)

  /** The units `format_bytes` tries in turn; PB is the fall-through after the loop. */
  const ByteUnits: seq<ByteUnit> := [B, KB, MB, GB, TB]

  /** 1024 to the power k. */
  function Binary(k: nat): (r: real)
    ensures r >= 1.0
  {
    if k == 0 then 1.0 else 1024.0 * Binary(k - 1)
  }

  /** The position of a unit: the power of 1024 it stands for. */
  function Exponent(u: ByteUnit): nat {
    match u
    case B => 0
    case KB => 1
    case MB => 2
    case GB => 3
    case TB => 4
    case PB => 5
  }

  /** What `format_bytes` produces from the amount `x` that remains after `k` divisions. */
  function ScaleBytes(x: real, k: nat): (q: Quantity<ByteUnit>)
    requires k <= 5
    decreases 5 - k
  {
    if k == 5 then Quantity(x, PB)
    else if x < 1024.0 then Quantity(x, ByteUnits[k])
    else ScaleBytes(x / 1024.0, k + 1)
  }

  function ByteQuantity(bytes: real): Quantity<ByteUnit> {
    ScaleBytes(bytes, 0)
  }

  /** `format_bytes`: divide by 1024 until the amount drops below 1024, at most up to PB. */
  method FormatBytes(bytes: real) returns (q: Quantity<ByteUnit>)
    ensures q == ByteQuantity(bytes)
  {
    var x := bytes;
    for k := 0 to 5
      invariant ScaleBytes(x, k) == ByteQuantity(bytes)
    {
      if x < 1024.0 {
        return Quantity(x, ByteUnits[k]);
      }
      x := x / 1024.0;
    }
    return Quantity(x, PB);
  }

  /**
   * What `ScaleBytes` computes from the state after k divisions: the amount in the chosen unit
   * times 1024 to the unit's power gives back the original, no unit before the chosen one was
   * passed over wrongly, and the amount fits its unit.
   */
  lemma {:induction false} ScaleBytesMeaning(x: real, k: nat)
    requires k <= 5
    ensures var q := ScaleBytes(x, k);
      && Exponent(q.unit) >= k
      && q.value * Binary(Exponent(q.unit) - k) == x
      && (q.unit != PB ==> q.value < 1024.0)
      && (Exponent(q.unit) > k ==> q.value >= 1.0 && x >= Binary(Exponent(q.unit) - k))
    decreases 5 - k
  {
    if k < 5 && x >= 1024.0 {
      ScaleBytesMeaning(x / 1024.0, k + 1);
      var q := ScaleBytes(x, k);
      var d := Exponent(q.unit) - k;
      assert Binary(d) == 1024.0 * Binary(d - 1);
      assert q.value * Binary(d - 1) == x / 1024.0;
      assert q.value * Binary(d) == 1024.0 * (q.value * Binary(d - 1));
      if Exponent(q.unit) > k + 1 {
        assert x / 1024.0 >= Binary(d - 1);
      }
    } else if k < 5 {
      assert ScaleBytes(x, k).unit == ByteUnits[k];
    }
  }

  /**
   * The unit `format_bytes` picks for a byte count: the largest power of 1024 not above it,
   * capped at PB; the amount is the count divided by that power, at least 1 past B and below
   * 1024 before PB.
   */
  lemma ByteQuantityMeaning(bytes: real)
    ensures var q := ByteQuantity(bytes);
      && q.value * Binary(Exponent(q.unit)) == bytes
      && (q.unit != PB ==> q.value < 1024.0 && bytes < Binary(Exponent(q.unit) + 1))
      && (q.unit != B ==> q.value >= 1.0 && bytes >= Binary(Exponent(q.unit)))
  {
    ScaleBytesMeaning(bytes, 0);
    var q := ByteQuantity(bytes);
    var e := Exponent(q.unit);
    if q.unit != PB {
      assert Binary(e + 1) == 1024.0 * Binary(e);
      assert bytes == q.value * Binary(e) < 1024.0 * Binary(e);
    }
  }

  /** Nothing below 1024 bytes is scaled. */
  lemma SmallCountsInBytes(bytes: real)
    requires bytes < 1024.0
    ensures ByteQuantity(bytes) == Quantity(bytes, B)
  {
  }

  /** `format_frequency`: GHz from 1e9 Hz, MHz from 1e6, kHz from 1e3, Hz below that. */
  function FrequencyQuantity(hz: real): (q: Quantity<FrequencyUnit>)
    ensures q.unit == GHz <==> hz >= 1000000000.0
    ensures q.unit == MHz <==> 1000000.0 <= hz < 1000000000.0
    ensures q.unit == KHz <==> 1000.0 <= hz < 1000000.0
    ensures q.unit == Hz <==> hz < 1000.0
    ensures q.value * Factor(q.unit) == hz
    ensures q.unit != Hz ==> q.value >= 1.0
    ensures q.unit != GHz ==> q.value < 1000.0
  {
    if hz >= 1000000000.0 then Quantity(hz / 1000000000.0, GHz)
    else if hz >= 1000000.0 then Quantity(hz / 1000000.0, MHz)
    else if hz >= 1000.0 then Quantity(hz / 1000.0, KHz)
    else Quantity(hz, Hz)
  }

  function Factor(u: FrequencyUnit): real {
    match u
    case Hz => 1.0
    case KHz => 1000.0
    case MHz => 1000000.0
    case GHz => 1000000000.0
  }
}
