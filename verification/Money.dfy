/** Amounts of money: whole thousandths, with rounding toward zero. */
module Money {

  const MONEY_QUANT: real := 0.001
  const MIN_USAGE_CHARGE: real := 0.001

  /** A whole number of thousandths. */
  predicate IsMoney(x: real) {
    x * 1000.0 == (x * 1000.0).Floor as real
  }

  /** `quantize(0.001, ROUND_DOWN)`: toward zero on either side. */
  function FloorMoney(x: real): real {
    if x >= 0.0 then (x * 1000.0).Floor as real / 1000.0
    else -((-x * 1000.0).Floor as real / 1000.0)
  }

  /** The charge for a raw price: rounded down, but never to nothing. */
  function UsageChargeAmount(raw: real): real {
    if raw <= 0.0 then 0.0
    else if FloorMoney(raw) > 0.0 then FloorMoney(raw)
    else MIN_USAGE_CHARGE
  }

  lemma MoneyOfThousandths(n: int)
    ensures IsMoney(n as real / 1000.0)
  {
  }

  /** Rounding gives money, moves toward zero, and by less than a thousandth. */
  lemma FloorMoneyIsClose(x: real)
    ensures IsMoney(FloorMoney(x))
    ensures x >= 0.0 ==> 0.0 <= FloorMoney(x) <= x < FloorMoney(x) + MONEY_QUANT
    ensures x <= 0.0 ==> FloorMoney(x) - MONEY_QUANT < x <= FloorMoney(x) <= 0.0
  {
    if x >= 0.0 {
      MoneyOfThousandths((x * 1000.0).Floor);
    } else {
      var n := (-x * 1000.0).Floor;
      MoneyOfThousandths(-n);
      assert (-n) as real / 1000.0 == -(n as real / 1000.0);
    }
  }

  /** Money is not changed by rounding: balances do not drift. */
  lemma FloorMoneyKeepsMoney(x: real)
    requires IsMoney(x)
    ensures FloorMoney(x) == x
  {
    var n := (x * 1000.0).Floor;
    Thousandths(x, n);
    if x >= 0.0 {
      assert FloorMoney(x) == n as real / 1000.0;
    } else {
      assert (-x * 1000.0).Floor == -n;
      assert FloorMoney(x) == -((-n) as real / 1000.0);
    }
  }

  lemma Thousandths(x: real, n: int)
    requires x * 1000.0 == n as real
    ensures x == n as real / 1000.0
    ensures -x * 1000.0 == (-n) as real && -x == (-n) as real / 1000.0
  {
  }

  lemma WholeThousandths(x: real, n: int)
    requires x * 1000.0 == n as real
    ensures IsMoney(x)
  {
  }

  lemma DifferenceIsMoney(x: real, y: real)
    requires IsMoney(x) && IsMoney(y)
    ensures IsMoney(x - y) && IsMoney(x + y)
  {
    var m, n := (x * 1000.0).Floor, (y * 1000.0).Floor;
    Difference(x, y, m, n);
  }

  lemma Difference(x: real, y: real, m: int, n: int)
    requires x * 1000.0 == m as real && y * 1000.0 == n as real
    ensures IsMoney(x - y) && IsMoney(x + y)
  {
    WholeThousandths(x - y, m - n);
    WholeThousandths(x + y, m + n);
  }

  /** An amount for a raw price: whole thousandths, within one of the price, and free only if the price is. */
  ghost predicate Fair(amount: real, raw: real) {
    && IsMoney(amount) && amount >= 0.0
    && (raw >= 0.0 ==> raw - MONEY_QUANT < amount < raw + MONEY_QUANT)
    && (amount == 0.0 <==> raw <= 0.0)
  }

  /** A charge is fair, and above the price only as the minimum charge. */
  lemma ChargeIsFair(raw: real)
    ensures Fair(UsageChargeAmount(raw), raw)
    ensures UsageChargeAmount(raw) > raw > 0.0 ==> UsageChargeAmount(raw) == MIN_USAGE_CHARGE
  {
    if raw > 0.0 {
      FloorMoneyIsClose(raw);
      MoneyOfThousandths(1);
    }
  }

  /** Summary lengths are billed per started thousand characters. */
  function SummaryCharUnits(length: int): nat {
    if length <= 0 then 0 else (length + 999) / 1000
  }

  lemma UnitsAreTheLeastEnough(length: nat)
    ensures length <= 1000 * SummaryCharUnits(length)
    ensures length > 0 ==> 1000 * (SummaryCharUnits(length) - 1) < length
  {
  }
}
