# Cart total calculator

A Dafny model of the shopping-cart calculator in `src/carrinho.js`: the
`TipoVoucher` enumeration, the `CartItem` record, the validating `Voucher`
constructor, `CartCalculator.calculateTotal` and the errors they throw, with
proofs of what the calculator promises about subtotals, discounts, rounding
and the floor at zero.

Files and modules:

- `wrappers.dfy` (`Wrappers`): `Option` for the nullable item list and
  voucher, `Result` for the value-or-exception outcome.
- `money.dfy` (`Money`): `Round2`, the `parseFloat(x.toFixed(2))` idiom of
  the source, on exact rationals. It follows Number.prototype.toFixed
  (ECMA-262, section 21.1.3.3): a negative number is rounded on its magnitude;
  among the integers n with n / 100 nearest to the magnitude the larger is
  taken, so halves go away from zero; from 10^21 upwards toFixed prints the
  number itself, so the value comes back unchanged.
- `carrinho.dfy` (`Carrinho`): voucher kinds, `CartItem`, `Voucher`, the
  error variants with their messages and exception classes, `NewVoucher`,
  `LineTotal`, `Subtotal`, `Discount` and `CalculateTotal`.
- `carrinho_properties.dfy` (`CarrinhoProperties`): lemmas about the
  subtotal, the discount and the total.
- `carrinho_scenarios.dfy` (`CarrinhoScenarios`): the scenarios of
  `tests/carrinho.test.js` as lemmas about concrete carts, plus three inputs
  that show the rounding policy and the absent line validation.

Money is `real`, and so are prices and quantities: `CartItem`
(src/carrinho.js:9-13) stores whatever it is given, and the model keeps its
fields as finite numbers without further checks. A null item list is `None`,
an absent voucher `None`. The voucher's raw value is a `RawValue`: a finite
number, +Infinity, -Infinity, NaN or a non-number, so that each test of
src/carrinho.js:22 can be stated.

What the code does and does not check:

- `CartItem` stores its arguments unchecked. Results that need sane lines
  take `WellFormedItems` (price at least 0, quantity at least 1) as a
  hypothesis.
- Without a voucher a non-null list can give a negative total
  (`NegativePriceScenario`); it is non-negative under `WellFormedItems`
  (`TotalWithoutVoucherNonNegative`).
- The value check at src/carrinho.js:22 lets +Infinity through; see
  "## Findings".

## Model

| member | source | states |
|---|---|---|
| `Carrinho.KindName` | src/carrinho.js:2-5 | each voucher kind is spelled PERCENTAGE or FIXED_AMOUNT |
| `Carrinho.ParseKind` | src/carrinho.js:19 | a type string is recognised exactly when it is PERCENTAGE or FIXED_AMOUNT, and the kind found spells that string |
| `Carrinho.ParseKindName` | src/carrinho.js:2-5 | spelling a kind and recognising the spelling gives the kind back |
| `Carrinho.ClassOf` | src/carrinho.js:37-40 | only the null-list error is an IllegalArgumentException; the voucher errors are plain errors |
| `Carrinho.MessagesDistinct` | src/carrinho.js:19-40 | the four errors carry four different messages |
| `Carrinho.NewVoucher` | src/carrinho.js:18-31 | an unknown type fails with the type error whatever the value; a known type with a value that is not a finite number above 0 fails with the value error; PERCENTAGE above 100 fails with the percentage error; otherwise the voucher is built with code, kind and value unchanged and is valid; it succeeds exactly when none of the three checks fails |
| `Carrinho.NewVoucherRoundTrip` | src/carrinho.js:28-30 | every valid voucher is what the constructor builds from its own code, kind name and value |
| `Carrinho.NewVoucherAgreesOffPositiveInfinity` | src/carrinho.js:19-27 | on every value but +Infinity the constructor fails exactly when the literal checks of the source throw, with the same error |
| `Carrinho.InfiniteFixedVoucherAccepted` | src/carrinho.js:22 | the literal checks accept a FIXED_AMOUNT voucher of +Infinity and refuse a PERCENTAGE one as over 100; the model's constructor refuses both as invalid values |
| `Carrinho.Message` | src/carrinho.js:19-40 | the message each error is thrown with: "Lista de itens não pode ser nula", "Tipo de voucher inválido", "Valor do voucher inválido", "Porcentagem não pode ser maior que 100%" |
| `Carrinho.VoucherCheckAsWritten` | src/carrinho.js:19-26 | the three checks of the constructor literally: the type first, then `typeof` number, not NaN and above 0, then PERCENTAGE above 100 (with +Infinity above 100); the error thrown, or none when the fields are stored |
| `Carrinho.LineTotal` | src/carrinho.js:48 | one line's contribution: price times quantity rounded to cents by toFixed(2) |
| `Carrinho.Subtotal` | src/carrinho.js:47-48 | the `reduce` from 0: the rounded line totals added in list order, each rounded before it is added |
| `Carrinho.Discount` | src/carrinho.js:56-62 | a FIXED_AMOUNT voucher takes off its value as it is; a PERCENTAGE voucher takes off subtotal times value over 100, rounded to cents |
| `Carrinho.CalculateTotal` | src/carrinho.js:37-67 | it fails exactly on a null list, with the IllegalArgumentException null-list error; an empty list gives 0 whatever the voucher; with a voucher the total is never negative |
| `Money.Round2` | src/carrinho.js:48 | rounding keeps the sign of its argument (0 counted on either side) |
| `Money.Round2Close` | src/carrinho.js:48 | below 10^21 in magnitude the result is whole cents and within half a cent of the argument |
| `Money.Round2Nearest` | src/carrinho.js:48 | for a non-negative argument below 10^21 no k / 100 is nearer than the result, and on a tie the result is the larger, as toFixed defines |
| `Money.Round2Odd` | src/carrinho.js:65 | rounding a negative difference is the negation of rounding its magnitude |
| `Money.Round2OfCents` | src/carrinho.js:52 | in exact arithmetic, a whole number of cents is left unchanged, so the final rounding of a subtotal of rounded lines changes nothing |
| `Money.Round2Monotone` | src/carrinho.js:61 | rounding preserves the order of two amounts |
| `CarrinhoProperties.SubtotalConcat` | src/carrinho.js:47-48 | in exact arithmetic, the subtotal of two carts joined is the sum of their subtotals |
| `CarrinhoProperties.SubtotalPermutation` | src/carrinho.js:47-48 | in exact arithmetic, any reordering of the same lines gives the same subtotal |
| `CarrinhoProperties.SubtotalIsCents` | src/carrinho.js:47-48 | in exact arithmetic, when no line reaches 10^21 the subtotal of rounded lines is a whole number of cents |
| `CarrinhoProperties.SubtotalNonNegative` | src/carrinho.js:47-48 | lines with price at least 0 and quantity at least 1 give a subtotal of at least 0 |
| `CarrinhoProperties.SubtotalNearRawSum` | src/carrinho.js:47-48 | rounding each line first keeps the subtotal within half a cent per line of the unrounded sum of price times quantity |
| `CarrinhoProperties.PercentOfBounds` | src/carrinho.js:61 | a percentage from 0 to 100 of a non-negative subtotal lies between 0 and the subtotal, and 100% is the subtotal |
| `CarrinhoProperties.PercentageDiscountBounds` | src/carrinho.js:59-62 | a valid percentage voucher on a cent subtotal takes away whole cents, within half a cent of the exact percentage, between 0 and the subtotal |
| `CarrinhoProperties.TotalWithoutVoucher` | src/carrinho.js:42-53 | without a voucher a cart costs exactly its subtotal of rounded lines, a whole number of cents |
| `CarrinhoProperties.TotalWithoutVoucherNonNegative` | src/carrinho.js:50-53 | without a voucher, lines with price at least 0 and quantity at least 1 never give a negative total |
| `CarrinhoProperties.TotalWithVoucher` | src/carrinho.js:64-66 | with a voucher the total is a non-negative whole number of cents: 0 when the discount reaches the subtotal, else within half a cent of subtotal less discount |
| `CarrinhoProperties.FixedVoucherCoversSubtotal` | src/carrinho.js:57-66 | a fixed voucher at least as large as the subtotal gives 0 |
| `CarrinhoProperties.FixedVoucherExact` | src/carrinho.js:57-58 | a fixed voucher of whole cents no larger than the subtotal is subtracted exactly |
| `CarrinhoProperties.PercentageVoucherExact` | src/carrinho.js:59-65 | a valid percentage voucher on sane lines gives the subtotal less the rounded percentage, never clamped, between 0 and the subtotal |
| `CarrinhoProperties.FullPercentageGivesZero` | src/carrinho.js:59-65 | a 100% voucher on a non-negative cent subtotal gives 0 |
| `CarrinhoProperties.TotalAtMostSubtotal` | src/carrinho.js:55-66 | a valid voucher on sane lines gives a total between 0 and the subtotal |
| `CarrinhoScenarios.TotalWithoutVoucherScenario` | tests/carrinho.test.js:11-17 | Mouse 50 x 2 and Teclado 100 x 1 without a voucher cost 200 |
| `CarrinhoScenarios.FixedVoucherScenario` | tests/carrinho.test.js:20-26 | Monitor 1000 with FIXED_AMOUNT 100 costs 900 |
| `CarrinhoScenarios.PercentageVoucherScenario` | tests/carrinho.test.js:29-36 | two lines of 100 with PERCENTAGE 20 cost 160 |
| `CarrinhoScenarios.FixedVoucherOverSubtotalScenario` | tests/carrinho.test.js:39-45 | Mouse 50 with FIXED_AMOUNT 100 costs 0 |
| `CarrinhoScenarios.EmptyCartScenario` | tests/carrinho.test.js:48-50 | an empty cart costs 0 |
| `CarrinhoScenarios.NullListScenario` | tests/carrinho.test.js:53-58 | a null list throws IllegalArgumentException "Lista de itens não pode ser nula" |
| `CarrinhoScenarios.InvalidVoucherTypeScenario` | tests/carrinho.test.js:61-64 | type INVALID_TYPE is refused with "Tipo de voucher inválido" |
| `CarrinhoScenarios.RoundingScenario` | tests/carrinho.test.js:66-73 | Produto 101.00 with PERCENTAGE 10 costs 90.90 |
| `CarrinhoScenarios.PerLineRoundingScenario` | src/carrinho.js:47-48 | two half-cent lines give 0.02, where rounding their sum once would give 0.01 |
| `CarrinhoScenarios.FixedDiscountNotRoundedScenario` | src/carrinho.js:57-58 | 1.00 with a fixed 0.125 gives 0.88, not the 0.87 a rounded discount would give (0.875 and 0.125 are exact in binary, so doubles agree) |
| `CarrinhoScenarios.NegativePriceScenario` | src/carrinho.js:8-13 | an unchecked negative price gives a negative total without a voucher |

## Left out

- Binary floating point: the source computes on IEEE-754 doubles and the model on exact rationals. So a literal such as 1.005, stored below 1.005, rounds down in `toFixed`, and `-0` is not told apart from `0`. More importantly, the `+` of the `reduce`, and the `*`, `/` and `-` of src/carrinho.js:61 and :65, are exact in the model. The subtotal's independence of line order (`SubtotalConcat`, `SubtotalPermutation`) and its being a whole number of cents (`SubtotalIsCents`, `Round2OfCents`) hold only in that exact arithmetic. On doubles, sums of cents drift (0.1 + 0.2 + 0.3 is 0.6000000000000001, while 0.3 + 0.2 + 0.1 is 0.6). The rounding at src/carrinho.js:52 removes the drift on the path with no voucher. With a voucher the unrounded subtotal reaches the discount, so line order can move the total by a cent: lines 0.1, 0.2, 0.3 with PERCENTAGE 2.5 give a discount of 0.02 and a total of 0.58, and in reverse order 0.01 and 0.59.
- Non-finite prices and quantities: `CartItem` accepts NaN and ±Infinity, and `Number(price)` in server.js produces them (from "abc" or "Infinity"); the source then returns a NaN total (`Math.max(0, NaN)` is NaN, even with a voucher) or an infinite one. The model's fields are finite reals, so those totals are not captured.
- Coercions of non-numeric prices or quantities (`"50" * 2`): `CartItem` fields are numbers here.
- A type argument that is not a string: it never equals a kind name, so it is the same as an unknown string.
- An `undefined` item list, which passes `items === null` and then fails on `items.length` with a TypeError: only `null` is modelled, as `None`.
- The `Error` subclass machinery of `IllegalArgumentException`: only its class (`ClassOf`) and message (`Message`) are kept.
- Determinism of `calculateTotal` needs no lemma: the model is a function.
- `public/main.js` (page wiring, `fetch`, `confirm`, timers) and its duplicate voucher checks, and `server.js` (HTTP routing, JSON bodies, environment, the cart and voucher kept in module-level variables) are not part of this model; they only call into the core.

## Findings

| source | as written | input that shows it | evidently intended | confidence | as-written member | corrected member |
|---|---|---|---|---|---|---|
| src/carrinho.js:22 | `typeof value !== 'number' \|\| isNaN(value) \|\| value <= 0` accepts +Infinity, so a FIXED_AMOUNT voucher worth Infinity is built and brings every cart to 0 (and a PERCENTAGE one is refused as over 100 rather than as an invalid value); `server.js` passes `Number("Infinity")` straight in | `new Voucher("X", "FIXED_AMOUNT", Infinity)` | only finite values above 0 are valid voucher values | medium, not executed | `Carrinho.InfiniteFixedVoucherAccepted` | `Carrinho.NewVoucher` |
