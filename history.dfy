/**
 * The history page (pages/history/history.js): every stock with its
 * profit rate, newest first, narrowed by a date range and a status, shown a
 * page of ten at a time, with statistics over everything that passes the
 * filters.
 */
module History {
  import opened Common
  import opened Seqs
  import opened Sorting
  import opened Money
  import opened JsText
  import opened Records
  import WinningResult

  /** `pageSize`. */
  const PageSize := 10

  /** The labels of the status picker, by index. */
  const StatusOptions: seq<string> := ["全部", "打新中", "已结束"]

  /**
   * A stock as the page lists it, with its profit rate in hundredths of a
   * percent (`toFixed(2)` of the percentage); `None` is the `NaN` shown for
   * a sold stock without a recorded profit.
   */
  datatype Item = Item(stock: Stock, profitRate: Option<int>)

  /** The statistics row: count, total profit in cents, winning rate in hundredths of a percent. */
  datatype Stats = Stats(total: int, totalProfit: int, winningRate: int)

  /** The shares a profit rate is taken over: `sellShares || winningShares || 0`. */
  function RateShares(s: Stock): int {
    if s.sellShares != 0 then s.sellShares else s.winningShares
  }

  /**
   * The profit rate of a stock: computed only for a stock with a sale price
   * and a cost price, over the cost of the shares; 0 otherwise.
   */
  function ProfitRate(s: Stock): Option<int> {
    if s.sellPrice > 0 && s.costPrice.Some? && s.costPrice.value > 0 then
      var costAmount := s.costPrice.value * RateShares(s);
      if costAmount > 0 then
        if s.profit.Some? then Some(ToFixedCents((s.profit.value as real) * 10000.0 / (costAmount as real)))
        else None
      else Some(0)
    else Some(0)
  }

  /**
   * The rate is 0 unless the stock has a sale price and a cost price; when it
   * is computed it is profit / cost as a percentage, to the nearest
   * hundredth, and has the sign of the profit; it is `NaN` exactly when the
   * profit is missing.
   */
  lemma ProfitRateMeaning(s: Stock)
    ensures !(s.sellPrice > 0 && s.costPrice.Some? && s.costPrice.value > 0) ==> ProfitRate(s) == Some(0)
    ensures s.sellPrice > 0 && s.costPrice.Some? && s.costPrice.value > 0 && s.costPrice.value * RateShares(s) <= 0 ==>
      ProfitRate(s) == Some(0)
    ensures ProfitRate(s).None? <==>
      s.sellPrice > 0 && s.costPrice.Some? && s.costPrice.value > 0 && s.costPrice.value * RateShares(s) > 0 && s.profit.None?
    ensures (ProfitRate(s).Some? && s.profit.Some? && s.costPrice.Some? && s.costPrice.value * RateShares(s) > 0 &&
             s.sellPrice > 0 && s.costPrice.value > 0) ==>
      var x := (s.profit.value as real) * 10000.0 / ((s.costPrice.value * RateShares(s)) as real);
      ProfitRate(s).value as real - 0.5 <= x <= ProfitRate(s).value as real + 0.5
    ensures ProfitRate(s).Some? && s.profit.Some? && s.profit.value >= 0 ==> ProfitRate(s).value >= 0
    ensures ProfitRate(s).Some? && s.profit.Some? && s.profit.value <= 0 ==> ProfitRate(s).value <= 0
  {
    if s.sellPrice > 0 && s.costPrice.Some? && s.costPrice.value > 0 && s.profit.Some? {
      var c := s.costPrice.value * RateShares(s);
      if c > 0 {
        var x := (s.profit.value as real) * 10000.0 / (c as real);
        if s.profit.value <= 0 {
          assert x <= 0.0;
          assert -x >= 0.0;
        }
      }
    }
  }

  /** `loadAllData`'s per-stock step: the stock with its profit rate. */
  function Processed(s: Stock): Item {
    Item(s, ProfitRate(s))
  }

  /** Items ordered newest first, by their stock's `createTime`. */
  predicate ItemNewerOrSame(a: Item, b: Item) {
    NewerOrSame(a.stock, b.stock)
  }

  lemma ItemNewerOrSameIsPreorder()
    ensures TotalPreorder(ItemNewerOrSame)
  {
  }

  /** `allStocks`: every stored stock with its rate, newest first. */
  function AllItems(stocks: seq<Stock>): seq<Item> {
    ItemNewerOrSameIsPreorder();
    SortBy(Map(stocks, Processed), ItemNewerOrSame)
  }

  /** The full list holds one item per stored stock, with that stock's rate, newest first. */
  lemma AllItemsShape(stocks: seq<Stock>)
    ensures multiset(AllItems(stocks)) == multiset(Map(stocks, Processed))
    ensures |AllItems(stocks)| == |stocks|
    ensures SortedBy(AllItems(stocks), ItemNewerOrSame)
    ensures forall i :: 0 <= i < |AllItems(stocks)| ==> AllItems(stocks)[i].profitRate == ProfitRate(AllItems(stocks)[i].stock)
  {
    var all := AllItems(stocks);
    var mapped := Map(stocks, Processed);
    assert |all| == |mapped| by {
      assert |multiset(all)| == |multiset(mapped)|;
    }
    forall i | 0 <= i < |all|
      ensures all[i].profitRate == ProfitRate(all[i].stock)
    {
      assert all[i] in multiset(mapped);
      var j :| 0 <= j < |mapped| && mapped[j] == all[i];
    }
  }

  /** `createTime >= startTime`; an unparsable date (`NaN`) keeps nothing. */
  function AtOrAfter(t: Option<int>): Item -> bool {
    (it: Item) => t.Some? && it.stock.createTime >= t.value
  }

  /** `createTime <= endTime`; an unparsable date keeps nothing. */
  function AtOrBefore(t: Option<int>): Item -> bool {
    (it: Item) => t.Some? && it.stock.createTime <= t.value
  }

  /** `stock.status === statusValue`. */
  function HasStatus(status: string): Item -> bool {
    (it: Item) => it.stock.status == status
  }

  /** The status a picker index selects: `None` keeps every status. An index off the picker reads as 已结束. */
  function StatusValue(index: Option<int>): Option<string> {
    var picked := if index.Some? && 0 <= index.value < |StatusOptions| then Some(StatusOptions[index.value]) else None;
    if picked == Some("全部") then None
    else if picked == Some("打新中") then Some("ongoing")
    else Some("finished")
  }

  /** 全部 keeps all, 打新中 keeps 'ongoing', and everything else keeps 'finished'. */
  lemma StatusValueCases(index: Option<int>)
    ensures StatusValue(index).None? <==> index == Some(0)
    ensures StatusValue(index) == Some("ongoing") <==> index == Some(1)
    ensures index != Some(0) && index != Some(1) ==> StatusValue(index) == Some("finished")
  {
  }

  /**
   * `filterAndDisplayData`'s filters: from the start of `startDate`, up to
   * `endDate` 23:59:59, then by status. `parseTime` stands for
   * `new Date(text).getTime()`.
   */
  function Filtered(all: seq<Item>, startDate: string, endDate: string, statusIndex: Option<int>,
                    parseTime: string -> Option<int>): seq<Item>
  {
    var a := if startDate != "" then Filter(all, AtOrAfter(parseTime(startDate))) else all;
    var b := if endDate != "" then Filter(a, AtOrBefore(parseTime(endDate + " 23:59:59"))) else a;
    var status := StatusValue(statusIndex);
    if status.None? then b else Filter(b, HasStatus(status.value))
  }

  /** An item passes exactly when it lies in the date range that is set and has the selected status. */
  lemma FilteredMembers(all: seq<Item>, startDate: string, endDate: string, statusIndex: Option<int>,
                        parseTime: string -> Option<int>, x: Item)
    ensures x in Filtered(all, startDate, endDate, statusIndex, parseTime) <==>
      x in all &&
      (startDate != "" ==> parseTime(startDate).Some? && x.stock.createTime >= parseTime(startDate).value) &&
      (endDate != "" ==>
        parseTime(endDate + " 23:59:59").Some? && x.stock.createTime <= parseTime(endDate + " 23:59:59").value) &&
      (StatusValue(statusIndex).Some? ==> x.stock.status == StatusValue(statusIndex).value)
  {
    var a := if startDate != "" then Filter(all, AtOrAfter(parseTime(startDate))) else all;
    var b := if endDate != "" then Filter(a, AtOrBefore(parseTime(endDate + " 23:59:59"))) else a;
    FilterMembers(all, AtOrAfter(parseTime(startDate)));
    FilterMembers(a, AtOrBefore(parseTime(endDate + " 23:59:59")));
    var status := StatusValue(statusIndex);
    if status.Some? {
      FilterMembers(b, HasStatus(status.value));
    }
  }

  /** Filtering keeps the newest-first order. */
  lemma FilteredSorted(all: seq<Item>, startDate: string, endDate: string, statusIndex: Option<int>,
                       parseTime: string -> Option<int>)
    requires SortedBy(all, ItemNewerOrSame)
    ensures SortedBy(Filtered(all, startDate, endDate, statusIndex, parseTime), ItemNewerOrSame)
  {
    var a := if startDate != "" then Filter(all, AtOrAfter(parseTime(startDate))) else all;
    var b := if endDate != "" then Filter(a, AtOrBefore(parseTime(endDate + " 23:59:59"))) else a;
    FilterSorted(all, AtOrAfter(parseTime(startDate)), ItemNewerOrSame);
    FilterSorted(a, AtOrBefore(parseTime(endDate + " 23:59:59")), ItemNewerOrSame);
    var status := StatusValue(statusIndex);
    if status.Some? {
      FilterSorted(b, HasStatus(status.value), ItemNewerOrSame);
    }
  }

  /** The shown page: `filtered.slice(0, pageSize * currentPage)`. */
  function Displayed(filtered: seq<Item>, page: nat): seq<Item> {
    Slice(filtered, 0, PageSize * page)
  }

  /** `filtered.length > pageSize * currentPage`. */
  predicate HasMore(filtered: seq<Item>, page: nat) {
    |filtered| > PageSize * page
  }

  /**
   * The page shows the first `pageSize * currentPage` filtered items (all of
   * them when there are fewer), and there are more exactly when some are not
   * shown.
   */
  lemma DisplayedShape(filtered: seq<Item>, page: nat)
    ensures |Displayed(filtered, page)| == if |filtered| < PageSize * page then |filtered| else PageSize * page
    ensures Displayed(filtered, page) == filtered[..|Displayed(filtered, page)|]
    ensures HasMore(filtered, page) <==> |Displayed(filtered, page)| < |filtered|
  {
  }

  /** The next page keeps the shown items in front and, when there were more, shows more. */
  lemma NextPageExtends(filtered: seq<Item>, page: nat)
    ensures Displayed(filtered, page) <= Displayed(filtered, page + 1)
    ensures HasMore(filtered, page) ==> |Displayed(filtered, page)| < |Displayed(filtered, page + 1)|
  {
    DisplayedShape(filtered, page);
    DisplayedShape(filtered, page + 1);
  }

  /** `stock.profit || 0`. */
  function ItemProfit(it: Item): int {
    Or0(it.stock.profit)
  }

  /** Subscribed shares: hands × 100 for a Hong Kong name, the hands themselves otherwise. */
  function ItemSubscribed(it: Item): int {
    if WinningResult.IsHKStock(it.stock.stockName) then it.stock.subscriptionHands * 100 else it.stock.subscriptionHands
  }

  /** `stock.winningShares || 0`. */
  function ItemWinning(it: Item): int {
    it.stock.winningShares
  }

  /** `(totalWinning / totalSubscription * 100).toFixed(2)`, or 0 with no subscribed shares. */
  function WinningRate(winning: int, subscribed: int): int {
    if subscribed > 0 then ToFixedCents((winning as real) * 10000.0 / (subscribed as real)) else 0
  }

  /**
   * The winning rate is the allotted share of the subscribed shares as a
   * percentage to the nearest hundredth; it lies between 0% and 100% when
   * no more shares were allotted than subscribed, and is 0 without
   * subscribed shares.
   */
  lemma WinningRateMeaning(winning: int, subscribed: int)
    ensures subscribed <= 0 ==> WinningRate(winning, subscribed) == 0
    ensures subscribed > 0 ==>
      var x := (winning as real) * 10000.0 / (subscribed as real);
      WinningRate(winning, subscribed) as real - 0.5 <= x <= WinningRate(winning, subscribed) as real + 0.5
    ensures 0 <= winning <= subscribed ==> 0 <= WinningRate(winning, subscribed) <= 10000
  {
    if 0 <= winning <= subscribed && subscribed > 0 {
      var x := (winning as real) * 10000.0 / (subscribed as real);
      assert x <= 10000.0 by {
        assert (winning as real) <= (subscribed as real);
        assert (winning as real) * 10000.0 <= (subscribed as real) * 10000.0;
      }
    }
  }

  /** `calculateStats`: the count, the total profit and the winning rate of the items, in one pass. */
  method CalculateStats(items: seq<Item>) returns (stats: Stats)
    ensures stats.total == |items|
    ensures stats.totalProfit == SumOf(items, ItemProfit)
    ensures stats.winningRate == WinningRate(SumOf(items, ItemWinning), SumOf(items, ItemSubscribed))
  {
    var totalProfit, totalSubscription, totalWinning := 0, 0, 0;
    for i := 0 to |items|
      invariant totalProfit == SumOf(items[..i], ItemProfit)
      invariant totalSubscription == SumOf(items[..i], ItemSubscribed)
      invariant totalWinning == SumOf(items[..i], ItemWinning)
    {
      assert items[..i + 1][..i] == items[..i];
      totalProfit := totalProfit + ItemProfit(items[i]);
      totalSubscription := totalSubscription + ItemSubscribed(items[i]);
      totalWinning := totalWinning + ItemWinning(items[i]);
    }
    assert items[..|items|] == items;
    stats := Stats(|items|, totalProfit, WinningRate(totalWinning, totalSubscription));
  }

  /** The page's data: the full list, the filters, the paging state and what is shown. */
  class HistoryPage {
    var allStocks: seq<Item>
    var filteredStocks: seq<Item>
    var hasMore: bool
    var startDate: string
    var endDate: string
    var statusFilterIndex: Option<int>
    var currentPage: nat
    var filteredStats: Stats

    /** The page number starts at 1 and only grows or resets to 1. */
    predicate Valid()
      reads this
    {
      currentPage >= 1
    }

    /**
     * What `filterAndDisplayData` leaves on the page for a filtered list: its
     * first `currentPage` pages, whether more remain, and its statistics.
     */
    predicate Shows(filtered: seq<Item>)
      reads this
    {
      filteredStocks == Displayed(filtered, currentPage) &&
      hasMore == HasMore(filtered, currentPage) &&
      filteredStats.total == |filtered| &&
      filteredStats.totalProfit == SumOf(filtered, ItemProfit) &&
      filteredStats.winningRate == WinningRate(SumOf(filtered, ItemWinning), SumOf(filtered, ItemSubscribed))
    }

    constructor()
      ensures Valid()
      ensures allStocks == [] && filteredStocks == [] && !hasMore
      ensures startDate == "" && endDate == "" && statusFilterIndex == Some(0) && currentPage == 1
      ensures filteredStats == Stats(0, 0, 0)
    {
      allStocks, filteredStocks, hasMore := [], [], false;
      startDate, endDate, statusFilterIndex, currentPage := "", "", Some(0), 1;
      filteredStats := Stats(0, 0, 0);
    }

    /** `filterAndDisplayData`: recomputes the shown page, `hasMore` and the statistics from the filters. */
    method FilterAndDisplayData(parseTime: string -> Option<int>)
      requires Valid()
      modifies this`filteredStocks, this`hasMore, this`filteredStats
      ensures Valid()
      ensures Shows(Filtered(allStocks, startDate, endDate, statusFilterIndex, parseTime))
    {
      var filtered := Filtered(allStocks, startDate, endDate, statusFilterIndex, parseTime);
      filteredStats := CalculateStats(filtered);
      filteredStocks := Displayed(filtered, currentPage);
      hasMore := |filtered| > PageSize * currentPage;
    }

    /** `loadAllData`: reads the stored stocks with their rates, newest first, and redisplays. */
    method LoadAllData(store: StockStore, parseTime: string -> Option<int>)
      requires Valid()
      modifies this`allStocks, this`filteredStocks, this`hasMore, this`filteredStats
      ensures Valid()
      ensures allStocks == AllItems(store.stocks)
      ensures Shows(Filtered(allStocks, startDate, endDate, statusFilterIndex, parseTime))
    {
      allStocks := AllItems(store.stocks);
      FilterAndDisplayData(parseTime);
    }

    /** `onStartDateChange`. */
    method OnStartDateChange(value: string, parseTime: string -> Option<int>)
      requires Valid()
      modifies this`startDate, this`filteredStocks, this`hasMore, this`filteredStats
      ensures Valid() && startDate == value
      ensures Shows(Filtered(allStocks, startDate, endDate, statusFilterIndex, parseTime))
    {
      startDate := value;
      FilterAndDisplayData(parseTime);
    }

    /** `onEndDateChange`. */
    method OnEndDateChange(value: string, parseTime: string -> Option<int>)
      requires Valid()
      modifies this`endDate, this`filteredStocks, this`hasMore, this`filteredStats
      ensures Valid() && endDate == value
      ensures Shows(Filtered(allStocks, startDate, endDate, statusFilterIndex, parseTime))
    {
      endDate := value;
      FilterAndDisplayData(parseTime);
    }

    /** `onStatusFilterChange`: the picker's value goes through `parseInt`. */
    method OnStatusFilterChange(value: string, parseTime: string -> Option<int>)
      requires Valid()
      modifies this`statusFilterIndex, this`filteredStocks, this`hasMore, this`filteredStats
      ensures Valid() && statusFilterIndex == ParseInt(value)
      ensures Shows(Filtered(allStocks, startDate, endDate, statusFilterIndex, parseTime))
    {
      statusFilterIndex := ParseInt(value);
      FilterAndDisplayData(parseTime);
    }

    /** `resetFilter`: no dates, status 全部, first page. */
    method ResetFilter(parseTime: string -> Option<int>)
      requires Valid()
      modifies this`startDate, this`endDate, this`statusFilterIndex, this`currentPage
      modifies this`filteredStocks, this`hasMore, this`filteredStats
      ensures Valid()
      ensures startDate == "" && endDate == "" && statusFilterIndex == Some(0) && currentPage == 1
      ensures Shows(allStocks)
    {
      startDate, endDate, statusFilterIndex, currentPage := "", "", Some(0), 1;
      FilterAndDisplayData(parseTime);
    }

    /** `loadMore`: nothing when there is no more; otherwise the next page. */
    method LoadMore(parseTime: string -> Option<int>)
      requires Valid()
      modifies this`currentPage, this`filteredStocks, this`hasMore, this`filteredStats
      ensures Valid()
      ensures !old(hasMore) ==>
        currentPage == old(currentPage) && filteredStocks == old(filteredStocks) &&
        hasMore == old(hasMore) && filteredStats == old(filteredStats)
      ensures old(hasMore) ==> currentPage == old(currentPage) + 1
      ensures old(hasMore) ==> Shows(Filtered(allStocks, startDate, endDate, statusFilterIndex, parseTime))
    {
      if !hasMore {
        return;
      }
      currentPage := currentPage + 1;
      FilterAndDisplayData(parseTime);
    }
  }
}
