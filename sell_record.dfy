/**
 * The sale page of pages/sell-record/sell-record.js: the Hong Kong sell-side
 * fee schedule, the profit preview shown while the user types, the submit
 * checks, and the two writes back into the stock list. Prices are cents per
 * share; fees and amounts are cents; the prorated buy-side fee is an exact
 * rational number of cents.
 */
module SellRecord {
  import opened Common
  import opened Seqs
  import opened Money
  import opened JsText
  import opened Records

  /** The flat broker commission, HK$75.00. */
  const Commission := 7500

  /** The floor of the settlement fee, HK$3.00. */
  const MinSettlementFee := 300

  /**
   * `calculateSellFees` for a sale worth `base` cents: stamp duty 0.1%,
   * trading levy 0.00285%, trading fee 0.00565% and settlement fee 0.002%,
   * each rounded to the cent, the settlement fee raised to HK$3.00, plus
   * the commission. The total is the sum of the parts (the final rounding
   * of a whole number of cents changes nothing).
   */
  function SellFeesFor(base: int): (f: SellFees)
    ensures f.commission == Commission
    ensures NearestTo(f.stampDuty, base, 1000)
    ensures NearestTo(f.tradingLevy, base * 285, 10000000)
    ensures NearestTo(f.tradingFee, base * 565, 10000000)
    ensures f.settlementFee >= MinSettlementFee
    ensures NearestTo(f.settlementFee, base, 50000) || (f.settlementFee == MinSettlementFee && RoundDiv(base, 50000) < MinSettlementFee)
    ensures f.totalFee == f.commission + f.stampDuty + f.tradingLevy + f.tradingFee + f.settlementFee
  {
    var stampDuty := RoundDiv(base, 1000);
    var tradingLevy := RoundDiv(base * 285, 10000000);
    var tradingFee := RoundDiv(base * 565, 10000000);
    var settlement := RoundDiv(base, 50000);
    var settlementFee := if settlement < MinSettlementFee then MinSettlementFee else settlement;
    SellFees(Commission, stampDuty, tradingLevy, tradingFee, settlementFee,
             stampDuty + tradingLevy + tradingFee + settlementFee + Commission)
  }

  /** The fee breakdown shown when there is nothing to price: the commission alone, total 0. */
  const ResetFees := SellFees(Commission, 0, 0, 0, 0, 0)

  /** Every priced sale of a non-negative amount costs at least HK$78.00 (commission plus the settlement floor). */
  lemma SellFeesAtLeast(base: int)
    requires base >= 0
    ensures SellFeesFor(base).totalFee >= Commission + MinSettlementFee
  {
    RoundDivNonNegative(base, 1000);
    RoundDivNonNegative(base * 285, 10000000);
    RoundDivNonNegative(base * 565, 10000000);
  }

  /** A larger sale never costs less in fees. */
  lemma SellFeesMonotone(base: int, base': int)
    requires base <= base'
    ensures SellFeesFor(base).totalFee <= SellFeesFor(base').totalFee
  {
    RoundDivMonotone(base, base', 1000);
    RoundDivMonotone(base * 285, base' * 285, 10000000);
    RoundDivMonotone(base * 565, base' * 565, 10000000);
    RoundDivMonotone(base, base', 50000);
  }

  /**
   * The preview `calculateProfit` computes. `Unbounded` is a sale priced
   * against a stock with no winning shares, where the prorating ratio is
   * infinite and the profit is not a finite number.
   */
  datatype Quote =
    | Priced(sellAmount: int, costAmount: int, fees: SellFees, buyFees: real,
             totalFees: real, profit: real, profitRate: int)
    | Unbounded(sellAmount: int, costAmount: int, fees: SellFees)
    | Reset

  /**
   * The buy-side fees the whole winning lot carries: the saved
   * `winningFeeDetails.totalFee` when present and non-zero, otherwise
   * `serviceFee + packageFee` (each `|| 0`).
   */
  function BuyFeeBasis(stock: Stock): (fee: int)
    ensures stock.winningFeeTotal.Some? && stock.winningFeeTotal.value != 0 ==> fee == stock.winningFeeTotal.value
    ensures stock.winningFeeTotal.None? || stock.winningFeeTotal.value == 0 ==> fee == Or0(stock.serviceFee) + Or0(stock.packageFee)
  {
    if stock.winningFeeTotal.Some? && stock.winningFeeTotal.value != 0 then stock.winningFeeTotal.value
    else Or0(stock.serviceFee) + Or0(stock.packageFee)
  }

  /**
   * `calculateProfit` for a sale of `sellShares` at `sellPrice` (both `|| 0`),
   * as written: sale and cost amounts, the sell fees, the buy fees prorated
   * by `sellShares / winningShares`, and the profit rate in hundredths of a
   * percent. `totalFees` already holds the buy fees, and the profit
   * subtracts them a second time.
   */
  function CalculateProfitAsWritten(sellPrice: int, sellShares: int, stock: Stock): (q: Quote)
    ensures q.Reset? <==> !(sellPrice > 0 && sellShares > 0)
    ensures q.Unbounded? <==> sellPrice > 0 && sellShares > 0 && stock.winningShares == 0
    ensures q.Priced? ==>
      q.totalFees == q.buyFees + q.fees.totalFee as real &&
      q.profit == (q.sellAmount - q.costAmount - q.fees.totalFee) as real - 2.0 * q.buyFees
  {
    if sellPrice > 0 && sellShares > 0 then
      var sellAmount := sellPrice * sellShares;
      var costAmount := Or0(stock.issuePrice) * sellShares;
      var fees := SellFeesFor(sellShares * sellPrice);
      if stock.winningShares == 0 then
        Unbounded(sellAmount, costAmount, fees)
      else
        var buyFees := (BuyFeeBasis(stock) * sellShares) as real / stock.winningShares as real;
        var totalFees := buyFees + fees.totalFee as real;
        var profit := sellAmount as real - costAmount as real - buyFees - totalFees;
        var profitRate := if costAmount > 0 then ToFixedCents(profit * 10000.0 / costAmount as real) else 0;
        Priced(sellAmount, costAmount, fees, buyFees, totalFees, profit, profitRate)
    else
      Reset
  }

  /**
   * `calculateProfit` as its own comment states it: net profit is the sale
   * amount less the cost amount, the buy fees and the sell fees, each fee
   * counted once.
   */
  function CalculateProfit(sellPrice: int, sellShares: int, stock: Stock): (q: Quote)
    ensures q.Reset? <==> !(sellPrice > 0 && sellShares > 0)
    ensures q.Unbounded? <==> sellPrice > 0 && sellShares > 0 && stock.winningShares == 0
    ensures !q.Reset? ==>
      q.sellAmount == sellPrice * sellShares &&
      q.costAmount == Or0(stock.issuePrice) * sellShares &&
      q.fees == SellFeesFor(sellShares * sellPrice)
    ensures q.Priced? ==>
      q.buyFees == (BuyFeeBasis(stock) * sellShares) as real / stock.winningShares as real &&
      q.totalFees == q.buyFees + q.fees.totalFee as real &&
      q.profit == (q.sellAmount - q.costAmount - q.fees.totalFee) as real - q.buyFees
    ensures q.Priced? && q.costAmount > 0 ==> ToFixedCents(q.profit * 10000.0 / q.costAmount as real) == q.profitRate
    ensures q.Priced? && q.costAmount <= 0 ==> q.profitRate == 0
  {
    if sellPrice > 0 && sellShares > 0 then
      var sellAmount := sellPrice * sellShares;
      var costAmount := Or0(stock.issuePrice) * sellShares;
      var fees := SellFeesFor(sellShares * sellPrice);
      if stock.winningShares == 0 then
        Unbounded(sellAmount, costAmount, fees)
      else
        var buyFees := (BuyFeeBasis(stock) * sellShares) as real / stock.winningShares as real;
        var totalFees := buyFees + fees.totalFee as real;
        var profit := sellAmount as real - costAmount as real - totalFees;
        var profitRate := if costAmount > 0 then ToFixedCents(profit * 10000.0 / costAmount as real) else 0;
        Priced(sellAmount, costAmount, fees, buyFees, totalFees, profit, profitRate)
    else
      Reset
  }

  /**
   * The code as written agrees with the intended computation in every
   * figure but the profit and its rate, and its profit falls short by the
   * prorated buy fees: any sale that carries buy fees reports too low a
   * profit.
   */
  lemma BuyFeesCountedTwice(sellPrice: int, sellShares: int, stock: Stock)
    ensures var w, q := CalculateProfitAsWritten(sellPrice, sellShares, stock), CalculateProfit(sellPrice, sellShares, stock);
      w.Reset? == q.Reset? && w.Unbounded? == q.Unbounded? &&
      (w.Unbounded? ==> w == q) &&
      (w.Priced? ==> w.sellAmount == q.sellAmount && w.costAmount == q.costAmount && w.fees == q.fees &&
                     w.buyFees == q.buyFees && w.totalFees == q.totalFees && w.profit == q.profit - q.buyFees) &&
      (w.Priced? && q.buyFees > 0.0 ==> w.profit < q.profit)
  {
  }

  /**
   * Selling all 1000 shares of a lot whose allotment fees came to HK$100.00,
   * at the issue price, reports a loss of HK$200.00 plus the sell fees where
   * the intended loss is HK$100.00 plus the sell fees.
   */
  lemma BuyFeesCountedTwiceExample(stock: Stock)
    requires stock.winningShares == 1000 && stock.winningFeeTotal == Some(10000) && stock.issuePrice == Some(500)
    ensures var w, q := CalculateProfitAsWritten(500, 1000, stock), CalculateProfit(500, 1000, stock);
      w.Priced? && q.Priced? &&
      w.profit == (-20000 - q.fees.totalFee) as real && q.profit == (-10000 - q.fees.totalFee) as real
  {
    ProratedWhole(10000, 1000);
  }

  /** Selling the whole winning lot charges the whole buy-side fee, once. */
  lemma FullSaleChargesWholeBuyFee(sellPrice: int, stock: Stock)
    requires sellPrice > 0 && stock.winningShares > 0
    ensures var q := CalculateProfit(sellPrice, stock.winningShares, stock);
      q.Priced? && q.buyFees == BuyFeeBasis(stock) as real &&
      q.profit == (q.sellAmount - q.costAmount - q.fees.totalFee - BuyFeeBasis(stock)) as real
  {
    var q := CalculateProfit(sellPrice, stock.winningShares, stock);
    ProratedWhole(BuyFeeBasis(stock), stock.winningShares);
  }

  /** Prorating a whole by `n / n` gives the whole back. */
  lemma ProratedWhole(fee: int, n: int)
    requires n > 0
    ensures (fee * n) as real / n as real == fee as real
  {
    assert (fee * n) as real == fee as real * n as real;
  }

  /** The profit the preview hands to the save: `parseFloat(profit.toFixed(2))`, `None` when not a finite number. */
  function PreviewProfit(q: Quote): (p: Option<int>)
    ensures q.Priced? ==> p.Some? && p.value as real - 0.5 <= q.profit <= p.value as real + 0.5
    ensures q.Reset? ==> p == Some(0)
    ensures q.Unbounded? ==> p.None?
  {
    match q
    case Priced(_, _, _, _, _, profit, _) => Some(ToFixedCents(profit))
    case Unbounded(_, _, _) => None
    case Reset => Some(0)
  }

  /** The fee breakdown the preview shows. */
  function PreviewFees(q: Quote): (f: SellFees)
    ensures q.Reset? ==> f == ResetFees
    ensures !q.Reset? ==> f == q.fees
  {
    if q.Reset? then ResetFees else q.fees
  }

  /** What a confirmed sale writes into the stock. */
  datatype Sale = Sale(sellPrice: int, sellShares: int, sellTime: int, profit: Option<int>, fees: SellFees)

  /** Why `onSubmit` refuses a sale. */
  datatype SaleError = InvalidPrice | TooManyShares

  /** The share count `onSubmit` sells: `parseInt(shares) || winningShares`. */
  function SharesToSell(sharesText: string, stock: Stock): (n: int)
    ensures ParseInt(sharesText).Some? && ParseInt(sharesText).value != 0 ==> n == ParseInt(sharesText).value
    ensures ParseInt(sharesText).None? || ParseInt(sharesText).value == 0 ==> n == stock.winningShares
  {
    var parsed := ParseInt(sharesText);
    if parsed.Some? && parsed.value != 0 then parsed.value else stock.winningShares
  }

  /**
   * `onSubmit`: the price must parse to more than zero; the share count is
   * `parseInt(shares) || winningShares` and may not exceed the winning
   * shares. The profit and fees come from the preview of the same inputs,
   * whose share count is `parseInt(shares) || 0`; the sale time is the
   * chosen date at 12:00, passed in. The preview here is the corrected
   * `CalculateProfit`, each fee counted once.
   */
  function SubmitSale(priceText: string, sharesText: string, stock: Stock, sellTime: int): (r: Result<Sale, SaleError>)
    ensures ParseCents(priceText).None? || ParseCents(priceText).value <= 0 ==> r == Err(InvalidPrice)
    ensures r.Ok? <==>
      ParseCents(priceText).Some? && ParseCents(priceText).value > 0 && SharesToSell(sharesText, stock) <= stock.winningShares
    ensures r.Err? && ParseCents(priceText).Some? && ParseCents(priceText).value > 0 ==> r == Err(TooManyShares)
    ensures r.Ok? ==>
      r.value.sellPrice == ParseCents(priceText).value && r.value.sellTime == sellTime &&
      r.value.sellShares == SharesToSell(sharesText, stock) && r.value.sellShares <= stock.winningShares
    ensures r.Ok? ==>
      var q := CalculateProfit(ParseCents(priceText).value, Or0(ParseInt(sharesText)), stock);
      r.value.profit == PreviewProfit(q) && r.value.fees == PreviewFees(q)
    ensures r.Ok? && Or0(ParseInt(sharesText)) > 0 ==>
      var q := CalculateProfit(ParseCents(priceText).value, Or0(ParseInt(sharesText)), stock);
      q.Priced? && r.value.profit.Some? && r.value.fees == q.fees &&
      r.value.profit.value as real - 0.5 <= (q.sellAmount - q.costAmount - q.fees.totalFee) as real - q.buyFees <= r.value.profit.value as real + 0.5
    ensures r.Ok? && Or0(ParseInt(sharesText)) <= 0 ==> r.value.profit == Some(0) && r.value.fees == ResetFees
  {
    var price := ParseCents(priceText);
    var shares := SharesToSell(sharesText, stock);
    if price.None? || price.value <= 0 then Err(InvalidPrice)
    else if shares > stock.winningShares then Err(TooManyShares)
    else
      var q := CalculateProfit(price.value, Or0(ParseInt(sharesText)), stock);
      Ok(Sale(price.value, shares, sellTime, PreviewProfit(q), PreviewFees(q)))
  }

  /**
   * An empty (or zero) share field sells the whole winning lot, but the
   * preview priced no shares, so the sale is saved with profit 0 and the
   * reset fee breakdown.
   */
  lemma EmptySharesSaveZeroProfit(priceText: string, stock: Stock, sellTime: int)
    requires ParseCents(priceText).Some? && ParseCents(priceText).value > 0
    ensures var r := SubmitSale(priceText, "", stock, sellTime);
      r.Ok? && r.value.sellShares == stock.winningShares && r.value.profit == Some(0) && r.value.fees == ResetFees
  {
    assert ParseInt("").None?;
  }

  /** The stock after a sale: exactly the five sale fields are overwritten. */
  function Sold(s: Stock, sale: Sale): (t: Stock)
    ensures t.(sellPrice := s.sellPrice, sellShares := s.sellShares, sellTime := s.sellTime,
               profit := s.profit, sellFeeDetails := s.sellFeeDetails) == s
    ensures t.sellPrice == sale.sellPrice && t.sellShares == sale.sellShares &&
            t.sellTime == Some(sale.sellTime) && t.profit == sale.profit && t.sellFeeDetails == Some(sale.fees)
  {
    s.(sellPrice := sale.sellPrice, sellShares := sale.sellShares, sellTime := Some(sale.sellTime),
       profit := sale.profit, sellFeeDetails := Some(sale.fees))
  }

  /** `saveSellRecord`: rewrites the first stock with the id; an unknown id writes nothing. */
  method SaveSellRecord(store: StockStore, stockId: string, sale: Sale) returns (saved: bool)
    modifies store
    ensures var i := FirstIndex(old(store.stocks), StockWithId(stockId));
      saved == (i >= 0) &&
      store.stocks == if i >= 0 then old(store.stocks)[i := Sold(old(store.stocks)[i], sale)] else old(store.stocks)
  {
    var i := FirstIndex(store.stocks, StockWithId(stockId));
    if i == -1 {
      return false;
    }
    store.stocks := store.stocks[i := Sold(store.stocks[i], sale)];
    saved := true;
  }

  /** `updateStockStatus`: sets the status of the first stock with the id; an unknown id writes nothing. */
  method UpdateStockStatus(store: StockStore, stockId: string, status: string) returns (updated: bool)
    modifies store
    ensures var i := FirstIndex(old(store.stocks), StockWithId(stockId));
      updated == (i >= 0) &&
      store.stocks == if i >= 0 then old(store.stocks)[i := old(store.stocks)[i].(status := status)] else old(store.stocks)
  {
    var i := FirstIndex(store.stocks, StockWithId(stockId));
    if i == -1 {
      return false;
    }
    store.stocks := store.stocks[i := store.stocks[i].(status := status)];
    updated := true;
  }
}
