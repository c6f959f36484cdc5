/**
 * What the cart code promises about the subtotal and the total, proved of the
 * model in Carrinho.
 */
module CarrinhoProperties {
  import opened Wrappers
  import opened Money
  import opened Carrinho

  // ---------------------------------------------------------------------------
  // Hypotheses the cart code does not check
  // ---------------------------------------------------------------------------

  /** Every line's unrounded amount is below the point where toFixed stops
      writing decimals. */
  predicate LinesBelowThreshold(items: seq<CartItem>) {
    forall i :: 0 <= i < |items| ==>
      -ExponentThreshold < LineAmount(items[i]) < ExponentThreshold
  }

  /** Lines as the cart's callers are meant to build them: a price of at least
      0 and a quantity of at least 1. CartItem itself enforces neither. */
  predicate WellFormedItems(items: seq<CartItem>) {
    forall i :: 0 <= i < |items| ==> items[i].price >= 0.0 && items[i].quantity >= 1.0
  }

  /** The sum of price * quantity with no rounding at all. */
  function RawSum(items: seq<CartItem>): real
  {
    if items == [] then 0.0
    else RawSum(items[..|items| - 1]) + LineAmount(items[|items| - 1])
  }

  // ---------------------------------------------------------------------------
  // The subtotal
  // ---------------------------------------------------------------------------

  /** The subtotal of two carts put together is the sum of their subtotals. */
  lemma {:induction false} SubtotalConcat(a: seq<CartItem>, b: seq<CartItem>)
    ensures Subtotal(a + b) == Subtotal(a) + Subtotal(b)
  {
    if b == [] {
      assert a + b == a;
    } else {
      var n := |b| - 1;
      assert (a + b)[..|a + b| - 1] == a + b[..n];
      assert (a + b)[|a + b| - 1] == b[n];
      SubtotalConcat(a, b[..n]);
    }
  }

  /** The order of the lines does not change the subtotal: any rearrangement
      of the same lines has the same subtotal. */
  lemma {:induction false} SubtotalPermutation(a: seq<CartItem>, b: seq<CartItem>)
    requires multiset(a) == multiset(b)
    ensures Subtotal(a) == Subtotal(b)
  {
    if a == [] {
      assert b == [] by { assert |multiset(b)| == 0; }
    } else {
      var n := |a| - 1;
      var x := a[n];
      assert a == a[..n] + [x];
      assert x in multiset(b) by { assert x in multiset(a); }
      var j :| 0 <= j < |b| && b[j] == x;
      var rest := b[..j] + b[j + 1..];
      assert b == b[..j] + [x] + b[j + 1..];
      assert multiset(rest) == multiset(b) - multiset{x};
      assert multiset(a[..n]) == multiset(a) - multiset{x};
      SubtotalPermutation(a[..n], rest);
      SubtotalConcat(b[..j] + [x], b[j + 1..]);
      SubtotalConcat(b[..j], [x]);
      SubtotalConcat(b[..j], b[j + 1..]);
      assert Subtotal([x]) == LineTotal(x) by { assert [x][..0] == []; }
    }
  }

  /** When no line reaches 10^21 the subtotal is a whole number of cents. */
  lemma {:induction false} SubtotalIsCents(items: seq<CartItem>)
    requires LinesBelowThreshold(items)
    ensures IsCents(Subtotal(items))
  {
    if items != [] {
      var n := |items| - 1;
      assert LinesBelowThreshold(items[..n]) by {
        forall i | 0 <= i < n ensures
          -ExponentThreshold < LineAmount(items[..n][i]) < ExponentThreshold
        {
          assert items[..n][i] == items[i];
        }
      }
      SubtotalIsCents(items[..n]);
      Round2Close(LineAmount(items[n]));
      CentsAdd(Subtotal(items[..n]), LineTotal(items[n]));
    } else {
      assert 0.0 * 100.0 == 0 as real;
    }
  }

  /** Well-formed lines give a subtotal of at least 0. */
  lemma {:induction false} SubtotalNonNegative(items: seq<CartItem>)
    requires WellFormedItems(items)
    ensures Subtotal(items) >= 0.0
  {
    if items != [] {
      var n := |items| - 1;
      assert WellFormedItems(items[..n]) by {
        forall i | 0 <= i < n ensures items[..n][i].price >= 0.0 && items[..n][i].quantity >= 1.0 {
          assert items[..n][i] == items[i];
        }
      }
      SubtotalNonNegative(items[..n]);
      assert LineAmount(items[n]) >= 0.0;
    }
  }

  /** With well-formed lines a subtotal below 10^21 keeps every line below it. */
  lemma {:induction false} BelowThresholdFromSubtotal(items: seq<CartItem>)
    requires WellFormedItems(items) && Subtotal(items) < ExponentThreshold
    ensures LinesBelowThreshold(items)
  {
    if items != [] {
      var n := |items| - 1;
      assert WellFormedItems(items[..n]) by {
        forall i | 0 <= i < n ensures items[..n][i].price >= 0.0 && items[..n][i].quantity >= 1.0 {
          assert items[..n][i] == items[i];
        }
      }
      SubtotalNonNegative(items[..n]);
      var raw := LineAmount(items[n]);
      assert raw >= 0.0;
      assert raw < ExponentThreshold;
      BelowThresholdFromSubtotal(items[..n]);
      forall i | 0 <= i < |items| ensures
        -ExponentThreshold < LineAmount(items[i]) < ExponentThreshold
      {
        if i < n { assert items[..n][i] == items[i]; }
      }
    }
  }

  /** Rounding each line first moves the subtotal at most half a cent per
      line away from the unrounded sum. */
  lemma {:induction false} SubtotalNearRawSum(items: seq<CartItem>)
    requires LinesBelowThreshold(items)
    ensures -0.005 * |items| as real <= Subtotal(items) - RawSum(items) <= 0.005 * |items| as real
  {
    if items != [] {
      var n := |items| - 1;
      assert LinesBelowThreshold(items[..n]) by {
        forall i | 0 <= i < n ensures
          -ExponentThreshold < LineAmount(items[..n][i]) < ExponentThreshold
        {
          assert items[..n][i] == items[i];
        }
      }
      SubtotalNearRawSum(items[..n]);
      Round2Close(LineAmount(items[n]));
    }
  }

  // ---------------------------------------------------------------------------
  // The discount
  // ---------------------------------------------------------------------------

  /** A percentage between 0 and 100 of a non-negative amount lies between 0
      and the amount; 100% is the amount itself. */
  lemma PercentOfBounds(subtotal: real, pct: real)
    requires subtotal >= 0.0 && 0.0 <= pct <= 100.0
    ensures 0.0 <= PercentOf(subtotal, pct) <= subtotal
    ensures pct == 100.0 ==> PercentOf(subtotal, pct) == subtotal
  {
    assert 0.0 <= subtotal * pct by { assert pct >= 0.0; }
    assert subtotal * pct <= subtotal * 100.0 by {
      assert subtotal * (100.0 - pct) >= 0.0;
    }
  }

  /** A valid percentage voucher on a cent subtotal below 10^21 takes away a
      whole number of cents, within half a cent of the exact percentage, and
      never more than the subtotal. */
  lemma PercentageDiscountBounds(subtotal: real, v: Voucher)
    requires v.kind == Percentage && ValidVoucher(v)
    requires 0.0 <= subtotal < ExponentThreshold && IsCents(subtotal)
    ensures IsCents(Discount(subtotal, v))
    ensures -0.005 <= Discount(subtotal, v) - PercentOf(subtotal, v.value) <= 0.005
    ensures 0.0 <= Discount(subtotal, v) <= subtotal
  {
    var exact := PercentOf(subtotal, v.value);
    PercentOfBounds(subtotal, v.value);
    Round2Close(exact);
    Round2Monotone(exact, subtotal);
    Round2OfCents(subtotal);
  }

  // ---------------------------------------------------------------------------
  // The total
  // ---------------------------------------------------------------------------

  /** Without a voucher a cart costs exactly its subtotal, a whole number of
      cents. */
  lemma TotalWithoutVoucher(items: seq<CartItem>)
    requires LinesBelowThreshold(items)
    ensures CalculateTotal(Some(items), None) == Ok(Subtotal(items))
    ensures IsCents(Subtotal(items))
  {
    SubtotalIsCents(items);
    Round2OfCents(Subtotal(items));
  }

  /** Without a voucher, well-formed lines never give a negative total. */
  lemma TotalWithoutVoucherNonNegative(items: seq<CartItem>)
    requires WellFormedItems(items)
    ensures CalculateTotal(Some(items), None).Ok?
    ensures CalculateTotal(Some(items), None).value >= 0.0
  {
    SubtotalNonNegative(items);
  }

  /** With a voucher the total is 0 when the discount reaches the subtotal,
      and otherwise the whole number of cents nearest to subtotal less
      discount; never negative. */
  lemma TotalWithVoucher(items: seq<CartItem>, v: Voucher)
    requires items != []
    requires -ExponentThreshold < Subtotal(items) - Discount(Subtotal(items), v) < ExponentThreshold
    ensures var r := CalculateTotal(Some(items), Some(v));
            r.Ok? && r.value >= 0.0 && IsCents(r.value)
    ensures var d := Subtotal(items) - Discount(Subtotal(items), v);
            d <= 0.0 ==> CalculateTotal(Some(items), Some(v)) == Ok(0.0)
    ensures var d := Subtotal(items) - Discount(Subtotal(items), v);
            d >= 0.0 ==> -0.005 <= CalculateTotal(Some(items), Some(v)).value - d <= 0.005
  {
    var d := Subtotal(items) - Discount(Subtotal(items), v);
    Round2Close(d);
    assert 0.0 * 100.0 == 0 as real;
  }

  /** A fixed voucher at least as large as the subtotal brings the total to 0. */
  lemma FixedVoucherCoversSubtotal(items: seq<CartItem>, v: Voucher)
    requires v.kind == FixedAmount && v.value >= Subtotal(items)
    ensures CalculateTotal(Some(items), Some(v)) == Ok(0.0)
  {
  }

  /** A fixed voucher of whole cents, no larger than a cent subtotal, is taken
      off exactly; it is never rounded itself. */
  lemma FixedVoucherExact(items: seq<CartItem>, v: Voucher)
    requires v.kind == FixedAmount && IsCents(v.value)
    requires items != [] && LinesBelowThreshold(items) && v.value <= Subtotal(items)
    ensures CalculateTotal(Some(items), Some(v)) == Ok(Subtotal(items) - v.value)
  {
    SubtotalIsCents(items);
    CentsAdd(Subtotal(items), v.value);
    Round2OfCents(Subtotal(items) - v.value);
  }

  /** A valid percentage voucher on well-formed lines is never clamped: the
      total is the subtotal less the rounded percentage, between 0 and the
      subtotal. */
  lemma PercentageVoucherExact(items: seq<CartItem>, v: Voucher)
    requires v.kind == Percentage && ValidVoucher(v)
    requires items != [] && WellFormedItems(items) && Subtotal(items) < ExponentThreshold
    ensures CalculateTotal(Some(items), Some(v))
            == Ok(Subtotal(items) - Round2(PercentOf(Subtotal(items), v.value)))
    ensures 0.0 <= CalculateTotal(Some(items), Some(v)).value <= Subtotal(items)
  {
    var s := Subtotal(items);
    SubtotalNonNegative(items);
    BelowThresholdFromSubtotal(items);
    SubtotalIsCents(items);
    PercentageLeavesCents(s, v);
    var d := Discount(s, v);
    assert d == Round2(PercentOf(s, v.value));
    assert Round2(s - d) == s - d;
    assert CalculateTotal(Some(items), Some(v)) == Ok(s - d);
  }

  lemma PercentageLeavesCents(s: real, v: Voucher)
    requires v.kind == Percentage && ValidVoucher(v)
    requires 0.0 <= s < ExponentThreshold && IsCents(s)
    ensures Round2(s - Discount(s, v)) == s - Discount(s, v)
    ensures 0.0 <= s - Discount(s, v) <= s
  {
    PercentageDiscountBounds(s, v);
    CentsAdd(s, Discount(s, v));
    Round2OfCents(s - Discount(s, v));
  }

  /** A 100% voucher on a cent subtotal of at least 0 brings the total to 0. */
  lemma FullPercentageGivesZero(items: seq<CartItem>, v: Voucher)
    requires v.kind == Percentage && v.value == 100.0
    requires Subtotal(items) >= 0.0 && IsCents(Subtotal(items))
    ensures CalculateTotal(Some(items), Some(v)) == Ok(0.0)
  {
    var s := Subtotal(items);
    PercentOfBounds(s, 100.0);
    Round2OfCents(s);
  }

  /** A valid voucher never raises the total above the subtotal of a
      well-formed cart. */
  lemma TotalAtMostSubtotal(items: seq<CartItem>, v: Voucher)
    requires ValidVoucher(v)
    requires items != [] && WellFormedItems(items) && LinesBelowThreshold(items)
    ensures 0.0 <= CalculateTotal(Some(items), Some(v)).value <= Subtotal(items)
  {
    var s := Subtotal(items);
    SubtotalNonNegative(items);
    SubtotalIsCents(items);
    if v.kind == Percentage { PercentOfBounds(s, v.value); }
    Round2Monotone(s - Discount(s, v), s);
    Round2OfCents(s);
  }
}
