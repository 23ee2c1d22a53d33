/**
 * The allotment page of pages/winning-result/winning-result.js: whether a
 * stock is a Hong Kong listing (which subscribes in lots of 100 shares),
 * the most shares that can have been allotted, the amount and allotment
 * rate preview, the input and submit checks, and the write into the stock
 * list.
 */
module WinningResult {
  import opened Common
  import opened Seqs
  import opened Money
  import opened JsText
  import opened Records

  /** `isHKStock`: the name mentions 'HK' or '港股', or holds a five-digit code. */
  predicate IsHKStock(name: string) {
    Contains(name, "HK") || Contains(name, "港股") || HasFiveDigitRun(name)
  }

  /** A five-digit stock code anywhere in the name marks a Hong Kong listing. */
  lemma FiveDigitCodeIsHK(name: string, i: int)
    requires FiveDigitsAt(name, i)
    ensures IsHKStock(name)
  {
    assert 0 <= i <= |name| - 5;
  }

  /** 'HK' anywhere in the name marks a Hong Kong listing. */
  lemma HKInNameIsHK(prefix: string, suffix: string)
    ensures IsHKStock(prefix + "HK" + suffix)
  {
    var name := prefix + "HK" + suffix;
    assert name[|prefix|..|prefix| + 2] == "HK";
    assert OccursAt(name, "HK", |prefix|);
  }

  /** The shares a subscription of `hands` covers: 100 per lot for Hong Kong names, one per unit otherwise. */
  function SubscribedShares(name: string, hands: int): (n: int)
    ensures IsHKStock(name) ==> n == hands * 100
    ensures !IsHKStock(name) ==> n == hands
  {
    if IsHKStock(name) then hands * 100 else hands
  }

  /** `maxWinningShares`: no more shares can be allotted than were subscribed. */
  function MaxWinningShares(stock: Stock): (m: int)
    ensures m == SubscribedShares(stock.stockName, stock.subscriptionHands)
    ensures stock.subscriptionHands >= 0 ==> m >= stock.subscriptionHands
  {
    SubscribedShares(stock.stockName, stock.subscriptionHands)
  }

  /** The preview of an allotment: its cost in cents and its rate in hundredths of a percent. */
  datatype Outcome = Outcome(amount: int, rate: int)

  /**
   * `calculateResult`: nothing for a non-positive allotment; otherwise the
   * amount is shares × costPrice (`|| 0`) and the rate is shares over the
   * subscribed shares, as a percentage rounded to 2 decimals, or 0 when
   * nothing was subscribed.
   */
  function CalculateResult(stock: Stock, shares: int): (o: Option<Outcome>)
    ensures o.None? <==> shares <= 0
    ensures o.Some? ==> o.value.amount == shares * Or0(stock.costPrice)
    ensures o.Some? ==> var total := SubscribedShares(stock.stockName, stock.subscriptionHands);
      (total > 0 ==> NearestTo(o.value.rate, shares * 10000, total)) &&
      (total <= 0 ==> o.value.rate == 0)
  {
    if shares <= 0 then None
    else
      var total := SubscribedShares(stock.stockName, stock.subscriptionHands);
      var rate := if total > 0 then RoundDiv(shares * 10000, total) else 0;
      Some(Outcome(shares * Or0(stock.costPrice), rate))
  }

  /** Allotting every subscribed share is a rate of exactly 100.00%. */
  lemma FullAllotmentRate(stock: Stock)
    requires SubscribedShares(stock.stockName, stock.subscriptionHands) > 0
    ensures CalculateResult(stock, SubscribedShares(stock.stockName, stock.subscriptionHands)).value.rate == 10000
  {
    var t := SubscribedShares(stock.stockName, stock.subscriptionHands);
    var r := CalculateResult(stock, t).value.rate;
    assert t * (2 * r - 1) <= 2 * (t * 10000) < t * (2 * r + 1);
    assert t * (2 * r - 1) < t * 20001 && t * 19999 < t * (2 * r + 1);
    DistinctProducts(t, 2 * r - 1, 20001);
    DistinctProducts(t, 19999, 2 * r + 1);
  }

  /** Why `onSubmit` refuses an allotment. */
  datatype WinningError = InvalidShares | ExceedsSubscription

  /** What a confirmed allotment writes into the stock. */
  datatype Allotment = Allotment(winningShares: int, winningTime: Option<int>)

  /**
   * `onSubmit`: the share count must parse to a positive number no larger
   * than the maximum; the time is the chosen date and time (`None` when
   * that does not parse to a date).
   */
  function SubmitWinning(sharesText: string, maxShares: int, winningTime: Option<int>): (r: Result<Allotment, WinningError>)
    ensures r.Ok? <==> ParseInt(sharesText).Some? && 0 < ParseInt(sharesText).value <= maxShares
    ensures ParseInt(sharesText).None? || ParseInt(sharesText).value <= 0 ==> r == Err(InvalidShares)
    ensures r.Ok? ==> r.value == Allotment(ParseInt(sharesText).value, winningTime)
  {
    var shares := ParseInt(sharesText);
    if shares.None? || shares.value <= 0 then Err(InvalidShares)
    else if shares.value > maxShares then Err(ExceedsSubscription)
    else Ok(Allotment(shares.value, winningTime))
  }

  /** The stock after an allotment: exactly the winning shares and time are overwritten. */
  function Allotted(s: Stock, a: Allotment): (t: Stock)
    ensures t.(winningShares := s.winningShares, winningTime := s.winningTime) == s
    ensures t.winningShares == a.winningShares && t.winningTime == a.winningTime
  {
    s.(winningShares := a.winningShares, winningTime := a.winningTime)
  }

  /** `saveWinningResult`: rewrites the first stock with the id; an unknown id writes nothing. */
  method SaveWinningResult(store: StockStore, stockId: string, a: Allotment) returns (saved: bool)
    modifies store
    ensures var i := FirstIndex(old(store.stocks), StockWithId(stockId));
      saved == (i >= 0) &&
      store.stocks == if i >= 0 then old(store.stocks)[i := Allotted(old(store.stocks)[i], a)] else old(store.stocks)
  {
    var i := FirstIndex(store.stocks, StockWithId(stockId));
    if i == -1 {
      return false;
    }
    store.stocks := store.stocks[i := Allotted(store.stocks[i], a)];
    saved := true;
  }

  /** The page's state: the stock, the share limit, the share field and the preview. */
  class WinningPage {
    var stock: Stock
    var maxWinningShares: int
    var winningShares: string
    var calculatedAmount: int
    var winningRate: int

    /** `loadStockInfo` for a stock that was found: a recorded allotment is echoed and previewed. */
    constructor(found: Stock)
      ensures stock == found && maxWinningShares == MaxWinningShares(found)
      ensures found.winningShares > 0 ==> winningShares == IntToString(found.winningShares)
      ensures found.winningShares <= 0 ==> winningShares == "" && calculatedAmount == 0 && winningRate == 0
      ensures var o := CalculateResult(found, Or0(ParseInt(winningShares)));
        o.Some? ==> calculatedAmount == o.value.amount && winningRate == o.value.rate
    {
      stock := found;
      maxWinningShares := MaxWinningShares(found);
      calculatedAmount := 0;
      winningRate := 0;
      if found.winningShares > 0 {
        winningShares := IntToString(found.winningShares);
        ParseIntToString(found.winningShares);
        var o := CalculateResult(found, found.winningShares);
        calculatedAmount := o.value.amount;
        winningRate := o.value.rate;
      } else {
        winningShares := "";
      }
    }

    /** `calculateResult` on the page: the preview changes only when the share field holds a positive count. */
    method Recalculate()
      modifies this
      ensures stock == old(stock) && maxWinningShares == old(maxWinningShares) && winningShares == old(winningShares)
      ensures var o := CalculateResult(stock, Or0(ParseInt(winningShares)));
        if o.Some? then calculatedAmount == o.value.amount && winningRate == o.value.rate
        else calculatedAmount == old(calculatedAmount) && winningRate == old(winningRate)
    {
      var o := CalculateResult(stock, Or0(ParseInt(winningShares)));
      if o.Some? {
        calculatedAmount := o.value.amount;
        winningRate := o.value.rate;
      }
    }

    /**
     * `onWinningSharesChange`: the input is read as `parseInt || 0`; a value
     * above the limit is refused and changes nothing, any other value is
     * written back as its decimal text and previewed.
     */
    method OnWinningSharesChange(input: string) returns (accepted: bool)
      modifies this
      ensures var v := Or0(ParseInt(input)); accepted <==> v <= old(maxWinningShares)
      ensures stock == old(stock) && maxWinningShares == old(maxWinningShares)
      ensures !accepted ==>
        winningShares == old(winningShares) && calculatedAmount == old(calculatedAmount) && winningRate == old(winningRate)
      ensures accepted ==>
        winningShares == IntToString(Or0(ParseInt(input))) && ParseInt(winningShares) == Some(Or0(ParseInt(input)))
    ensures accepted ==>
      var o := CalculateResult(stock, Or0(ParseInt(input)));
      if o.Some? then calculatedAmount == o.value.amount && winningRate == o.value.rate
      else calculatedAmount == old(calculatedAmount) && winningRate == old(winningRate)
    {
      var value := Or0(ParseInt(input));
      if value > maxWinningShares {
        return false;
      }
      winningShares := IntToString(value);
      ParseIntToString(value);
      Recalculate();
      accepted := true;
    }
  }
}
