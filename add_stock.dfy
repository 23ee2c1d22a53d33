/**
 * The add/edit page of pages/add-stock/add-stock.js: the required-field
 * check, the record it builds from the form and from the values the page
 * carried over, the older single-subtraction profit formula, and the write
 * into the stock list.
 */
module AddStock {
  import opened Common
  import opened Seqs
  import opened Money
  import opened JsText
  import opened Records

  /** The text fields and the switch of the submitted form. */
  datatype StockForm = StockForm(
    stockName: string, costPrice: string, subscriptionHands: string,
    serviceFee: string, extraCost: string, isFinancing: bool,
    totalAmount: string, status: string)

  /** Why `onSubmit` refuses the form. */
  datatype FormError = MissingRequiredField

  /** `x || null` for a number: zero and NaN become null. */
  function OrNull(o: Option<int>): (r: Option<int>)
    ensures r.Some? <==> o.Some? && o.value != 0
    ensures r.Some? ==> r == o
  {
    if o.Some? && o.value != 0 then o else None
  }

  /**
   * `calculateProfit`: with `sellShares || winningShares` shares sold,
   * profit = sale − cost − (serviceFee + extraCost) × sold / winningShares
   * − sellFee − otherFee, rounded to the cent. It is 0 when nothing was
   * sold at a positive price, and not a number (`None`) when the cost price
   * is not a number or there are no winning shares to prorate by.
   */
  function CalculateProfit(stock: Stock): (p: Option<int>)
    ensures var sold := if stock.sellShares != 0 then stock.sellShares else stock.winningShares;
      (!(stock.sellPrice > 0 && sold > 0) ==> p == Some(0)) &&
      (stock.sellPrice > 0 && sold > 0 ==> (p.None? <==> stock.costPrice.None? || stock.winningShares == 0)) &&
      (p.Some? && stock.sellPrice > 0 && sold > 0 ==>
        var exact := ((stock.sellPrice - stock.costPrice.value) * sold - stock.sellFee - stock.otherFee) as real
                     - ((Or0(stock.serviceFee) + Or0(stock.extraCost)) * sold) as real / stock.winningShares as real;
        p.value as real - 0.5 <= exact <= p.value as real + 0.5)
  {
    var sold := if stock.sellShares != 0 then stock.sellShares else stock.winningShares;
    if stock.sellPrice > 0 && sold > 0 then
      if stock.costPrice.None? || stock.winningShares == 0 then None
      else
        var sellAmount := stock.sellPrice * sold;
        var costAmount := stock.costPrice.value * sold;
        var buyFees := ((Or0(stock.serviceFee) + Or0(stock.extraCost)) * sold) as real / stock.winningShares as real;
        var totalFees := buyFees + stock.sellFee as real + stock.otherFee as real;
        Some(ToFixedCents(sellAmount as real - costAmount as real - totalFees))
    else Some(0)
  }

  /** Selling the whole winning lot charges the buy-side fees in full, so the profit is a whole number of cents. */
  lemma FullSaleProfit(stock: Stock)
    requires stock.sellPrice > 0 && stock.winningShares > 0 && stock.costPrice.Some?
    requires stock.sellShares == 0 || stock.sellShares == stock.winningShares
    ensures CalculateProfit(stock) == Some((stock.sellPrice - stock.costPrice.value) * stock.winningShares
      - (Or0(stock.serviceFee) + Or0(stock.extraCost)) - stock.sellFee - stock.otherFee)
  {
    var n := stock.winningShares;
    var fee := Or0(stock.serviceFee) + Or0(stock.extraCost);
    assert (fee * n) as real == fee as real * n as real;
    assert (fee * n) as real / n as real == fee as real;
    assert stock.sellPrice * n - stock.costPrice.value * n == (stock.sellPrice - stock.costPrice.value) * n;
    ToFixedCentsWhole((stock.sellPrice - stock.costPrice.value) * n - fee - stock.sellFee - stock.otherFee);
  }

  /**
   * The record `onSubmit` builds, before the profit: the trimmed name, the
   * parsed numbers (fees `|| 0`), the status `|| 'ongoing'`, and from the
   * carried-over page values (`prior`, the stock loaded in edit mode) the
   * creation time `|| now`, the allotment and the sale. Fields the page
   * does not carry (account, issue price, package fee, fee details) are
   * absent.
   */
  function BuildStock(form: StockForm, prior: Option<Stock>, stockId: Option<string>, freshId: string, now: int): (s: Stock)
    ensures s.id == (if stockId.Some? && stockId.value != "" then stockId.value else freshId)
    ensures s.stockName == Trim(form.stockName)
    ensures s.costPrice == ParseCents(form.costPrice) && s.totalAmount == ParseCents(form.totalAmount)
    ensures s.subscriptionHands == Or0(ParseInt(form.subscriptionHands))
    ensures s.serviceFee == Some(Or0(ParseCents(form.serviceFee))) && s.extraCost == Some(Or0(ParseCents(form.extraCost)))
    ensures s.status == (if form.status == "" then "ongoing" else form.status)
    ensures s.createTime == (if prior.Some? && prior.value.createTime != 0 then prior.value.createTime else now)
    ensures prior.None? ==> s.winningShares == 0 && s.sellPrice == 0 && s.sellShares == 0 && s.winningTime.None? && s.sellTime.None?
    ensures prior.Some? ==> s.winningShares == prior.value.winningShares && s.sellPrice == prior.value.sellPrice &&
                            s.sellShares == prior.value.sellShares && s.sellFee == prior.value.sellFee &&
                            s.otherFee == prior.value.otherFee &&
                            s.winningTime == OrNull(prior.value.winningTime) && s.sellTime == OrNull(prior.value.sellTime)
    ensures s.accountId.None? && s.issuePrice.None? && s.packageFee.None? && s.winningFeeTotal.None? && s.sellFeeDetails.None?
    ensures s.profit == Some(0)
  {
    Stock(
      id := if stockId.Some? && stockId.value != "" then stockId.value else freshId,
      accountId := None,
      stockName := Trim(form.stockName),
      stockCode := None,
      costPrice := ParseCents(form.costPrice),
      issuePrice := None,
      subscriptionHands := Or0(ParseInt(form.subscriptionHands)),
      subscriptionShares := None,
      subscriptionDate := None,
      subscriptionMethod := None,
      subscriptionTime := None,
      serviceFee := Some(Or0(ParseCents(form.serviceFee))),
      extraCost := Some(Or0(ParseCents(form.extraCost))),
      packageFee := None,
      isFinancing := form.isFinancing,
      totalAmount := ParseCents(form.totalAmount),
      status := if form.status == "" then "ongoing" else form.status,
      createTime := if prior.Some? && prior.value.createTime != 0 then prior.value.createTime else now,
      winningShares := if prior.Some? then prior.value.winningShares else 0,
      winningTime := if prior.Some? then OrNull(prior.value.winningTime) else None,
      sellPrice := if prior.Some? then prior.value.sellPrice else 0,
      sellShares := if prior.Some? then prior.value.sellShares else 0,
      sellFee := if prior.Some? then prior.value.sellFee else 0,
      otherFee := if prior.Some? then prior.value.otherFee else 0,
      sellTime := if prior.Some? then OrNull(prior.value.sellTime) else None,
      profit := Some(0),
      sellFeeDetails := None,
      winningFeeTotal := None)
  }

  /**
   * `onSubmit`: all four required fields must be non-empty; the profit of
   * the built record is recomputed only when it has a positive sell price
   * and a winning lot, and is 0 otherwise.
   */
  function SubmitStock(form: StockForm, prior: Option<Stock>, stockId: Option<string>, freshId: string, now: int): (r: Result<Stock, FormError>)
    ensures r.Err? <==> form.stockName == "" || form.costPrice == "" || form.subscriptionHands == "" || form.totalAmount == ""
    ensures r.Ok? ==>
      var s := BuildStock(form, prior, stockId, freshId, now);
      r.value.(profit := Some(0)) == s &&
      r.value.profit == (if s.sellPrice > 0 && s.winningShares > 0 then CalculateProfit(s) else Some(0))
  {
    if form.stockName == "" || form.costPrice == "" || form.subscriptionHands == "" || form.totalAmount == "" then
      Err(MissingRequiredField)
    else
      var s := BuildStock(form, prior, stockId, freshId, now);
      Ok(if s.sellPrice > 0 && s.winningShares > 0 then s.(profit := CalculateProfit(s)) else s)
  }

  /** An edited stock no longer names its account, so the home page files it under 'default'. */
  lemma EditedStockFallsToDefault(form: StockForm, prior: Option<Stock>, stockId: Option<string>, freshId: string, now: int)
    requires SubmitStock(form, prior, stockId, freshId, now).Ok?
    ensures OwnerOf(SubmitStock(form, prior, stockId, freshId, now).value) == "default"
  {
  }

  /**
   * `saveStock`: in edit mode the first stock with the page's id is
   * replaced by the new record (nothing when the id is absent); a new
   * record is appended.
   */
  method SaveStock(store: StockStore, stock: Stock, isEdit: bool, stockId: string)
    modifies store
    ensures isEdit ==>
      var i := FirstIndex(old(store.stocks), StockWithId(stockId));
      store.stocks == if i >= 0 then old(store.stocks)[i := stock] else old(store.stocks)
    ensures !isEdit ==> store.stocks == old(store.stocks) + [stock]
  {
    if isEdit {
      var i := FirstIndex(store.stocks, StockWithId(stockId));
      if i != -1 {
        store.stocks := store.stocks[i := stock];
      }
    } else {
      store.stocks := store.stocks + [stock];
    }
  }
}
