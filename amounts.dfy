/**
 * The price gate of `validate_params` and the two ledger amounts derived
 * from a validated price (me_articles_purchase_create.py).
 */
module Amounts {
  import opened Wrappers
  import opened Errors
  import opened Numerals

  /** 10^18: the number of smallest units in one whole token. */
  const Wei: nat := 1_000_000_000_000_000_000

  /**
   * 10^27. Below it `Decimal(price) * Decimal(9)` has at most 28 digits and
   * fits Python's default decimal context, so both splits below are exact.
   */
  const DecimalExactLimit: nat := Pow(10, 27)

  /**
   * The price checks of `validate_params`: `int(price)` and then the
   * float test `(price / 10 ** 18).is_integer()`. IEEE division is not
   * modelled; its verdict is the parameter `quotientIsInteger`.
   */
  function ValidatePrice(text: string, quotientIsInteger: int -> bool): (r: Result<int, Error>)
    ensures r.Ok? ==> ParseInt(text) == Some(r.value) && quotientIsInteger(r.value)
    ensures r == Err(PriceMustBeInteger) <==> ParseInt(text) == None
    ensures r == Err(DecimalValueNotAllowed) <==>
              ParseInt(text).Some? && !quotientIsInteger(ParseInt(text).value)
  {
    match ParseInt(text)
    case None => Err(PriceMustBeInteger)
    case Some(price) =>
      if quotientIsInteger(price) then Ok(price) else Err(DecimalValueNotAllowed)
  }

  /** The float test is right at least about whole numbers of tokens. */
  ghost predicate ExactOnWholeTokens(quotientIsInteger: int -> bool)
  {
    forall price: int :: price % Wei == 0 ==> quotientIsInteger(price)
  }

  /** A price that is a whole number of tokens, written in decimal, passes the gate. */
  lemma WholeTokenPricePasses(price: int, quotientIsInteger: int -> bool)
    requires price % Wei == 0 && ExactOnWholeTokens(quotientIsInteger)
    ensures ValidatePrice(DecimalText(price), quotientIsInteger) == Ok(price)
  {
    DecimalTextParses(price);
  }

  /** A price written with a decimal point is refused as 'Price must be integer'. */
  lemma PointPriceRejected(text: string, quotientIsInteger: int -> bool)
    requires '.' in text
    ensures ValidatePrice(text, quotientIsInteger) == Err(PriceMustBeInteger)
  {
    PointNeverParses(text);
  }

  /** The seller's share, `int(Decimal(price) * Decimal(9) / Decimal(10))`. */
  function PurchaseAmount(price: int): (amount: nat)
    requires 0 <= price < DecimalExactLimit
    ensures 10 * amount <= 9 * price < 10 * amount + 10
    ensures amount <= price
  {
    9 * price / 10
  }

  /** The burnt share, `int(Decimal(price) / Decimal(10))`. */
  function BurnAmount(price: int): (amount: nat)
    requires 0 <= price < DecimalExactLimit
    ensures 10 * amount <= price < 10 * amount + 10
  {
    price / 10
  }

  /** The two shares add up to the price exactly when the price is a multiple of ten, and fall one short otherwise. */
  lemma SharesAddUp(price: int)
    requires 0 <= price < DecimalExactLimit
    ensures price % 10 == 0 ==> PurchaseAmount(price) + BurnAmount(price) == price
    ensures price % 10 != 0 ==> PurchaseAmount(price) + BurnAmount(price) == price - 1
  {
    var m, d := price / 10, price % 10;
    assert price == 10 * m + d;
    assert 9 * price == 10 * (9 * m) + 9 * d;
    assert PurchaseAmount(price) == 9 * m + (9 * d) / 10;
  }

  /** A validated price is a whole number of tokens, so nothing is lost in the split. */
  lemma WholeTokenPriceSplitsExactly(price: int)
    requires 0 <= price < DecimalExactLimit && price % Wei == 0
    ensures PurchaseAmount(price) + BurnAmount(price) == price
  {
    var k := price / Wei;
    assert price == 10 * (k * 100_000_000_000_000_000);
    SharesAddUp(price);
  }

  lemma BelowHexWidth(amount: nat)
    requires amount < DecimalExactLimit
    ensures amount < Pow(16, 64)
  {
    PowBaseMonotone(10, 16, 27);
    PowExponentMonotone(16, 27, 64);
  }

  /**
   * Both `'064x'` renderings are exactly 64 lower-case hex digits and decode
   * back to the amount, so the ledger reads the amount that was computed.
   */
  lemma TipValuesRoundTrip(price: int)
    requires 0 <= price < DecimalExactLimit
    ensures var tip := Format064x(PurchaseAmount(price));
      |tip| == 64 && AllDigits(tip, 16) && Value(tip, 16) == PurchaseAmount(price)
    ensures var tip := Format064x(BurnAmount(price));
      |tip| == 64 && AllDigits(tip, 16) && Value(tip, 16) == BurnAmount(price)
  {
    BelowHexWidth(PurchaseAmount(price));
    BelowHexWidth(BurnAmount(price));
  }
}
