/**
 * The cart total calculator: voucher kinds, cart lines, the validating voucher
 * constructor and `CartCalculator.calculateTotal`.
 */
module Carrinho {
  import opened Wrappers
  import opened Money

  // ---------------------------------------------------------------------------
  // Voucher kinds (the `TipoVoucher` enumeration)
  // ---------------------------------------------------------------------------

  datatype VoucherKind = Percentage | FixedAmount

  /** The string each kind is spelled as. */
  function KindName(k: VoucherKind): (s: string)
    ensures s == "PERCENTAGE" || s == "FIXED_AMOUNT"
  {
    match k
    case Percentage => "PERCENTAGE"
    case FixedAmount => "FIXED_AMOUNT"
  }

  /** `Object.values(TipoVoucher).includes(type)`, returning the kind found. */
  function ParseKind(s: string): (r: Option<VoucherKind>)
    ensures r.Some? <==> (s == "PERCENTAGE" || s == "FIXED_AMOUNT")
    ensures r.Some? ==> KindName(r.value) == s
  {
    if s == "PERCENTAGE" then Some(Percentage)
    else if s == "FIXED_AMOUNT" then Some(FixedAmount)
    else None
  }

  /** Spelling a kind and looking it up again gives the same kind. */
  lemma ParseKindName(k: VoucherKind)
    ensures ParseKind(KindName(k)) == Some(k)
  {
  }

  // ---------------------------------------------------------------------------
  // Errors
  // ---------------------------------------------------------------------------

  /** The four conditions the core throws on. */
  datatype CartError =
    | NullItems            // calculateTotal called with a null list
    | InvalidVoucherType   // type is neither PERCENTAGE nor FIXED_AMOUNT
    | InvalidVoucherValue  // value is not a positive number
    | PercentageOverLimit  // a PERCENTAGE voucher above 100

  /** Which class of exception is thrown. */
  datatype ErrorClass = IllegalArgumentException | PlainError

  function ClassOf(e: CartError): (c: ErrorClass)
    ensures c == IllegalArgumentException <==> e == NullItems
  {
    if e == NullItems then IllegalArgumentException else PlainError
  }

  /** The exception message for each error. */
  function Message(e: CartError): string
  {
    match e
    case NullItems => "Lista de itens não pode ser nula"
    case InvalidVoucherType => "Tipo de voucher inválido"
    case InvalidVoucherValue => "Valor do voucher inválido"
    case PercentageOverLimit => "Porcentagem não pode ser maior que 100%"
  }

  /** Each error has its own message. */
  lemma MessagesDistinct(e1: CartError, e2: CartError)
    requires e1 != e2
    ensures Message(e1) != Message(e2)
  {
    assert Message(e1)[0] != Message(e2)[0] || |Message(e1)| != |Message(e2)|;
  }

  // ---------------------------------------------------------------------------
  // Cart lines and vouchers
  // ---------------------------------------------------------------------------

  /** A cart line. The constructor stores its arguments and checks nothing. */
  datatype CartItem = CartItem(name: string, price: real, quantity: real)

  /** A voucher as the constructor stores it. */
  datatype Voucher = Voucher(code: string, kind: VoucherKind, value: real)

  /** What the constructor guarantees of every voucher it returns. */
  predicate ValidVoucher(v: Voucher) {
    v.value > 0.0 && (v.kind == Percentage ==> v.value <= 100.0)
  }

  /** The JavaScript value passed as a voucher's value. */
  datatype RawValue =
    | Number(x: real)      // a finite number
    | PositiveInfinity
    | NegativeInfinity
    | NotANumber           // NaN, whose typeof is still 'number'
    | NonNumber            // a string, an object, undefined, ...

  /** The value is a finite number above zero. */
  predicate PositiveFinite(value: RawValue) {
    value.Number? && value.x > 0.0
  }

  /** `new Voucher(code, type, value)`: the type is checked first, then the
      value, then the percentage bound; a voucher that passes stores its fields
      unchanged. Unlike the source, +Infinity is rejected as a value. */
  function NewVoucher(code: string, typeName: string, value: RawValue): (r: Result<Voucher, CartError>)
    ensures ParseKind(typeName).None? ==> r == Err(InvalidVoucherType)
    ensures ParseKind(typeName).Some? && !PositiveFinite(value) ==> r == Err(InvalidVoucherValue)
    ensures typeName == "PERCENTAGE" && value.Number? && value.x > 100.0 ==> r == Err(PercentageOverLimit)
    ensures r.Ok? <==> ParseKind(typeName).Some? && PositiveFinite(value)
                       && (typeName == "PERCENTAGE" ==> value.x <= 100.0)
    ensures r.Ok? ==> ValidVoucher(r.value) && r.value.code == code
                      && KindName(r.value.kind) == typeName && Number(r.value.value) == value
  {
    match ParseKind(typeName)
    case None => Err(InvalidVoucherType)
    case Some(kind) =>
      if !PositiveFinite(value) then Err(InvalidVoucherValue)
      else if kind == Percentage && value.x > 100.0 then Err(PercentageOverLimit)
      else Ok(Voucher(code, kind, value.x))
  }

  /** Every valid voucher is built by the constructor from its own fields. */
  lemma NewVoucherRoundTrip(v: Voucher)
    requires ValidVoucher(v)
    ensures NewVoucher(v.code, KindName(v.kind), Number(v.value)) == Ok(v)
  {
  }

  // ---------------------------------------------------------------------------
  // The value check as the source writes it
  // ---------------------------------------------------------------------------

  /** The checks of the constructor exactly as written, returning the error
      they throw, or None when the fields are stored. `typeof value !==
      'number' || isNaN(value) || value <= 0` lets +Infinity through. */
  function VoucherCheckAsWritten(typeName: string, value: RawValue): Option<CartError>
  {
    var isNumber := !value.NonNumber?;
    var isNaN := value.NotANumber?;
    var atMostZero := value.NegativeInfinity? || (value.Number? && value.x <= 0.0);
    var overHundred := value.PositiveInfinity? || (value.Number? && value.x > 100.0);
    if !(typeName == "PERCENTAGE" || typeName == "FIXED_AMOUNT") then Some(InvalidVoucherType)
    else if !isNumber || isNaN || atMostZero then Some(InvalidVoucherValue)
    else if typeName == "PERCENTAGE" && overHundred then Some(PercentageOverLimit)
    else None
  }

  /** The source builds a FIXED_AMOUNT voucher worth +Infinity, which then
      brings every cart to 0, and refuses a PERCENTAGE one as over 100; the
      model refuses both as invalid values. */
  lemma InfiniteFixedVoucherAccepted(code: string)
    ensures VoucherCheckAsWritten("FIXED_AMOUNT", PositiveInfinity) == None
    ensures NewVoucher(code, "FIXED_AMOUNT", PositiveInfinity) == Err(InvalidVoucherValue)
    ensures VoucherCheckAsWritten("PERCENTAGE", PositiveInfinity) == Some(PercentageOverLimit)
    ensures NewVoucher(code, "PERCENTAGE", PositiveInfinity) == Err(InvalidVoucherValue)
  {
  }

  /** On every value other than +Infinity the model throws exactly what the
      source throws, and builds a voucher exactly when the source does. */
  lemma NewVoucherAgreesOffPositiveInfinity(code: string, typeName: string, value: RawValue)
    requires value != PositiveInfinity
    ensures NewVoucher(code, typeName, value).Err? <==> VoucherCheckAsWritten(typeName, value).Some?
    ensures NewVoucher(code, typeName, value).Err? ==>
              NewVoucher(code, typeName, value).error == VoucherCheckAsWritten(typeName, value).value
  {
  }

  // ---------------------------------------------------------------------------
  // The total
  // ---------------------------------------------------------------------------

  /** A line's amount before rounding, `item.price * item.quantity`. */
  function LineAmount(item: CartItem): real
  {
    item.price * item.quantity
  }

  /** `parseFloat((item.price * item.quantity).toFixed(2))`. */
  function LineTotal(item: CartItem): real
  {
    Round2(LineAmount(item))
  }

  /** The `reduce` from 0 over the list: each line is rounded before it is
      added, in list order. */
  function Subtotal(items: seq<CartItem>): real
  {
    if items == [] then 0.0
    else Subtotal(items[..|items| - 1]) + LineTotal(items[|items| - 1])
  }

  /** `subtotal * value / 100`. */
  function PercentOf(subtotal: real, value: real): real
  {
    subtotal * value / 100.0
  }

  /** The voucher's discount on a subtotal: a fixed amount as it is, a
      percentage of the subtotal rounded to cents. */
  function Discount(subtotal: real, voucher: Voucher): real
  {
    match voucher.kind
    case FixedAmount => voucher.value
    case Percentage => Round2(PercentOf(subtotal, voucher.value))
  }

  /** `calculateTotal(items, voucher)`. A null list fails; an empty list is 0;
      otherwise the subtotal of rounded lines, rounded again when there is no
      voucher, or less the discount, rounded and floored at 0. */
  function CalculateTotal(items: Option<seq<CartItem>>, voucher: Option<Voucher>): (r: Result<real, CartError>)
    ensures r.Err? <==> items.None?
    ensures r.Err? ==> r.error == NullItems && ClassOf(r.error) == IllegalArgumentException
    ensures items == Some([]) ==> r == Ok(0.0)
    ensures r.Ok? && voucher.Some? ==> r.value >= 0.0
  {
    match items
    case None => Err(NullItems)
    case Some(list) =>
      if list == [] then Ok(0.0)
      else
        var subtotal := Subtotal(list);
        match voucher
        case None => Ok(Round2(subtotal))
        case Some(v) =>
          var total := Round2(subtotal - Discount(subtotal, v));
          Ok(if total < 0.0 then 0.0 else total)
  }
}
