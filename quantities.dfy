/** The quantity arithmetic shared by the Day Requirements page and its
    report: `Number(v) || d` defaulting, the rounded-up multiplier
    `Math.ceil(total / totpkt)` guarded by `totpkt > 0`, and the line
    quantity `req_qty * multiplier`. */
module Quantities {
  import opened Wrappers

  /** `Number(v) || 0`: NaN (None) and 0 both give 0. */
  function OrZero(n: Option<real>): real {
    match n
    case Some(v) => v
    case None => 0.0
  }

  /** `Number(v) || 1`: NaN (None) and 0 both give 1. */
  function OrOne(n: Option<real>): (r: real)
    ensures r != 0.0
    ensures n.Some? && n.value != 0.0 ==> r == n.value
  {
    if n.Some? && n.value != 0.0 then n.value else 1.0
  }

  /** Math.ceil: the least integer not below x. */
  function Ceil(x: real): (c: int)
    ensures c as real >= x
    ensures (c - 1) as real < x
  {
    -((-x).Floor)
  }

  /** The multiplier: 0 when totpkt is not positive, otherwise the least
      integer m with m * totpkt >= total. */
  function Multiplier(total: real, totpkt: real): (m: int)
    ensures totpkt <= 0.0 ==> m == 0
    ensures totpkt > 0.0 ==> m as real * totpkt >= total
    ensures totpkt > 0.0 ==> (m - 1) as real * totpkt < total
  {
    if totpkt > 0.0 then
      var kg := total / totpkt;
      var c := Ceil(kg);
      assert c as real * totpkt >= total by {
        assert c as real >= kg;
        assert kg * totpkt == total;
      }
      assert (c - 1) as real * totpkt < total by {
        assert (c - 1) as real < kg;
        assert kg * totpkt == total;
      }
      c
    else 0
  }

  /** The multiplier is the only integer with the two bounds. */
  lemma MultiplierUnique(total: real, totpkt: real, k: int)
    requires totpkt > 0.0
    requires k as real * totpkt >= total && (k - 1) as real * totpkt < total
    ensures k == Multiplier(total, totpkt)
  {
    var m := Multiplier(total, totpkt);
    assert m as real * totpkt >= total && (m - 1) as real * totpkt < total;
    ScaleCancel(k as real, (m - 1) as real, totpkt);
    ScaleCancel(m as real, (k - 1) as real, totpkt);
  }

  lemma ScaleCancel(x: real, y: real, t: real)
    requires x * t > y * t && t > 0.0
    ensures x > y
  {
    assert (x - y) * t == x * t - y * t;
  }

  /** A line quantity: the item's per-unit quantity (0 when not numeric)
      times the multiplier, with no further rounding. */
  function LineQty(reqQty: Option<real>, multiplier: int): real {
    OrZero(reqQty) * multiplier as real
  }
}
