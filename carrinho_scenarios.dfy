/**
 * The scenarios the cart's test suite pins down, and three more inputs that
 * show the rounding policy and the missing line validation, as lemmas about
 * concrete carts.
 */
module CarrinhoScenarios {
  import opened Wrappers
  import opened Money
  import opened Carrinho
  import opened CarrinhoProperties

  lemma OneLineSubtotal(a: CartItem)
    ensures Subtotal([a]) == LineTotal(a)
  {
    assert [a][..0] == [];
  }

  lemma TwoLineSubtotal(a: CartItem, b: CartItem)
    ensures Subtotal([a, b]) == LineTotal(a) + LineTotal(b)
  {
    assert [a, b][..1] == [a];
    OneLineSubtotal(a);
  }

  /** Two mice at 50 and a keyboard at 100, no voucher: 200. */
  lemma TotalWithoutVoucherScenario()
    ensures CalculateTotal(Some([CartItem("Mouse", 50.0, 2.0), CartItem("Teclado", 100.0, 1.0)]), None)
            == Ok(200.0)
  {
    TwoLineSubtotal(CartItem("Mouse", 50.0, 2.0), CartItem("Teclado", 100.0, 1.0));
    Round2OfCents(100.0);
    Round2OfCents(200.0);
  }

  /** A monitor at 1000 with the voucher FIXED100: 900. */
  lemma FixedVoucherScenario()
    ensures var v := NewVoucher("FIXED100", "FIXED_AMOUNT", Number(100.0));
            v.Ok? && CalculateTotal(Some([CartItem("Monitor", 1000.0, 1.0)]), Some(v.value)) == Ok(900.0)
  {
    var items := [CartItem("Monitor", 1000.0, 1.0)];
    assert items[..0] == [];
    Round2OfCents(1000.0);
    Round2OfCents(900.0);
  }

  /** Two lines at 100 with the voucher PERC20: 160. */
  lemma PercentageVoucherScenario()
    ensures var v := NewVoucher("PERC20", "PERCENTAGE", Number(20.0));
            v.Ok? && CalculateTotal(Some([CartItem("Mouse", 100.0, 1.0), CartItem("Teclado", 100.0, 1.0)]), Some(v.value))
                     == Ok(160.0)
  {
    var items := [CartItem("Mouse", 100.0, 1.0), CartItem("Teclado", 100.0, 1.0)];
    var v := Voucher("PERC20", Percentage, 20.0);
    assert NewVoucher("PERC20", "PERCENTAGE", Number(20.0)) == Ok(v);
    TwoLineSubtotal(items[0], items[1]);
    Round2OfCents(100.0);
    assert Subtotal(items) == 200.0;
    PercentageVoucherExact(items, v);
    assert PercentOf(200.0, 20.0) == 40.0;
    Round2OfCents(40.0);
  }

  /** A mouse at 50 with the voucher FIXED100: the total is floored at 0. */
  lemma FixedVoucherOverSubtotalScenario()
    ensures var v := NewVoucher("FIXED100", "FIXED_AMOUNT", Number(100.0));
            v.Ok? && CalculateTotal(Some([CartItem("Mouse", 50.0, 1.0)]), Some(v.value)) == Ok(0.0)
  {
    var items := [CartItem("Mouse", 50.0, 1.0)];
    assert items[..0] == [];
    Round2OfCents(50.0);
    Round2OfCents(-50.0);
  }

  /** An empty cart costs 0. */
  lemma EmptyCartScenario()
    ensures CalculateTotal(Some([]), None) == Ok(0.0)
  {
  }

  /** A null list throws IllegalArgumentException with its message. */
  lemma NullListScenario()
    ensures CalculateTotal(None, None) == Err(NullItems)
    ensures ClassOf(NullItems) == IllegalArgumentException
    ensures Message(NullItems) == "Lista de itens não pode ser nula"
  {
  }

  /** An unknown voucher type is refused with its message. */
  lemma InvalidVoucherTypeScenario()
    ensures NewVoucher("INVALID", "INVALID_TYPE", Number(10.0)) == Err(InvalidVoucherType)
    ensures Message(InvalidVoucherType) == "Tipo de voucher inválido"
  {
  }

  /** A product at 101.00 with the voucher PERC10: 90.90. */
  lemma RoundingScenario()
    ensures var v := NewVoucher("PERC10", "PERCENTAGE", Number(10.0));
            v.Ok? && CalculateTotal(Some([CartItem("Produto", 101.0, 1.0)]), Some(v.value)) == Ok(90.90)
  {
    var items := [CartItem("Produto", 101.0, 1.0)];
    assert items[..0] == [];
    Round2OfCents(101.0);
    assert PercentOf(101.0, 10.0) == 10.10;
    Round2OfCents(10.10);
    Round2OfCents(90.90);
  }

  /** Rounding each line before adding differs from rounding the sum: two
      lines of half a cent give 0.02, while rounding their sum gives 0.01. */
  lemma PerLineRoundingScenario()
    ensures var items := [CartItem("A", 0.005, 1.0), CartItem("B", 0.005, 1.0)];
            CalculateTotal(Some(items), None) == Ok(0.02) && Round2(RawSum(items)) == 0.01
  {
    var items := [CartItem("A", 0.005, 1.0), CartItem("B", 0.005, 1.0)];
    HalfCentLine(items[0]);
    HalfCentLine(items[1]);
    TwoLineSubtotal(items[0], items[1]);
    Round2OfCents(0.02);
    assert items[..1] == [items[0]] && items[..1][..0] == [];
    assert RawSum(items) == 0.01;
    assert (0.01 * 100.0 + 0.5).Floor == 1;
  }

  lemma HalfCentLine(a: CartItem)
    requires a.price == 0.005 && a.quantity == 1.0
    ensures LineTotal(a) == 0.01
  {
    assert LineAmount(a) == 0.005;
    assert (0.005 * 100.0 + 0.5).Floor == 1;
  }

  /** A fixed discount is subtracted as it is and only the difference is
      rounded: 1.00 less 0.125 gives 0.88, not the 0.87 a rounded discount
      would give. */
  lemma FixedDiscountNotRoundedScenario()
    ensures CalculateTotal(Some([CartItem("A", 1.0, 1.0)]), Some(Voucher("EIGHTH", FixedAmount, 0.125)))
            == Ok(0.88)
    ensures 1.0 - Round2(0.125) == 0.87
  {
    var items := [CartItem("A", 1.0, 1.0)];
    assert items[..0] == [];
    Round2OfCents(1.0);
    assert (0.875 * 100.0 + 0.5).Floor == 88;
    assert (0.125 * 100.0 + 0.5).Floor == 13;
  }

  /** A CartItem with a negative price is accepted and makes the total
      negative when there is no voucher to floor it. */
  lemma NegativePriceScenario()
    ensures CalculateTotal(Some([CartItem("Estorno", -5.0, 1.0)]), None) == Ok(-5.0)
  {
    var items := [CartItem("Estorno", -5.0, 1.0)];
    assert items[..0] == [];
    Round2OfCents(-5.0);
  }
}
