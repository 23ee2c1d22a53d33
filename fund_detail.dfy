/**
 * The ledger statement page of pages/fund-detail/fund-detail.js: it turns
 * an account's cash records and business transactions into display rows,
 * filters them, sorts them newest first with a chain of tie-breakers, and
 * shows them twenty at a time.
 */
module FundDetail {
  import opened Common
  import opened Seqs
  import opened Sorting
  import opened Ledger

  /** Where a row comes from. */
  datatype Origin = FundOrigin | BusinessOrigin

  /**
   * A display row. `kind` is the stored type; business rows carry no
   * currency, show the absolute amount and always count as completed.
   */
  datatype Row = Row(
    origin: Origin, kind: string, id: string, amount: Option<int>, currency: Option<string>,
    status: string, sortTime: int, createTime: int, description: string,
    displayType: Option<string>, icon: string, typeText: string, colorClass: string,
    displayDescription: string)

  /** The filter panel's four choices. */
  datatype Filters = Filters(filterType: string, filterCurrency: string, filterStatus: string, dateRange: string)

  /** The rows one page shows. */
  const PageSize := 20

  /** `record.timestamp || record.createTime || 0`. */
  function SortTime(timestamp: Option<int>, createTime: int): (t: int)
    ensures timestamp.Some? && timestamp.value != 0 ==> t == timestamp.value
    ensures timestamp.None? || timestamp.value == 0 ==> t == createTime
  {
    if timestamp.Some? && timestamp.value != 0 then timestamp.value else createTime
  }

  /** `getBusinessTypeLabel`: the Chinese label of a business type, or the type itself. */
  function BusinessTypeLabel(kind: string): (r: string)
    ensures kind !in BusinessKinds ==> r == kind
    ensures kind in BusinessKinds ==> r != kind && r != ""
  {
    if kind == "subscribe" then "打新申购"
    else if kind == "allot" then "中签扣款"
    else if kind == "allot_refund" then "中签退款"
    else if kind == "fee_deduction" then "手续费扣除"
    else if kind == "fee_refund" then "手续费退款"
    else if kind == "sell" then "卖出收入"
    else if kind == "sell_refund" then "卖出退款"
    else kind
  }

  /** `getRecordTypeText`: only the two cash types have a text. */
  function RecordTypeText(kind: string): (r: string)
    ensures r != "未知类型" <==> kind == "deposit" || kind == "withdraw"
  {
    if kind == "deposit" then "资金转入"
    else if kind == "withdraw" then "资金转出"
    else "未知类型"
  }

  /** The business types shown as money coming in. */
  const PositiveKinds: set<string> := {"allot_refund", "fee_refund", "sell"}

  /** The business types shown as money going out. */
  const NegativeKinds: set<string> := {"subscribe", "allot", "fee_deduction", "sell_refund"}

  /** `getAmountColorClass`. */
  function AmountColorClass(origin: Origin, kind: string): (r: string)
    ensures r == "positive" || r == "negative" || r == "business"
    ensures r == "business" <==> origin == BusinessOrigin && kind !in BusinessKinds
    ensures origin == FundOrigin ==> (r == "positive" <==> kind == "deposit")
  {
    if origin == BusinessOrigin then
      if kind in PositiveKinds then "positive"
      else if kind in NegativeKinds then "negative"
      else "business"
    else if kind == "deposit" then "positive" else "negative"
  }

  /** `getRecordIcon`. */
  function RecordIcon(origin: Origin, kind: string): (r: string)
    ensures origin == BusinessOrigin ==> (r == "🏢" <==> kind !in BusinessKinds)
    ensures origin == FundOrigin ==> (r == "💰" <==> kind == "deposit") && (r != "💰" ==> r == "💸")
  {
    if origin == BusinessOrigin then
      if kind == "subscribe" then "📊"
      else if kind == "allot" then "✅"
      else if kind == "allot_refund" then "↩️"
      else if kind == "fee_deduction" then "💸"
      else if kind == "fee_refund" then "💰"
      else if kind == "sell" then "💹"
      else if kind == "sell_refund" then "📉"
      else "🏢"
    else if kind == "deposit" then "💰" else "💸"
  }

  /** Each business type has a label of its own. */
  lemma BusinessLabelsDistinct(a: string, b: string)
    requires a in BusinessKinds && b in BusinessKinds && a != b
    ensures BusinessTypeLabel(a) != BusinessTypeLabel(b)
  {
  }

  /** `getShortDescription`: the text itself when at most 20 characters, else its first 20. */
  function ShortDescription(description: string): (r: string)
    ensures |r| <= 20 && |r| <= |description|
    ensures r == description[..|r|]
    ensures |description| <= 20 <==> r == description
  {
    if |description| <= 20 then description else description[..20]
  }

  /** `getDisplayDescription`: the shortened note, or '入金'/'出金' for a cash record without one. */
  function DisplayDescription(origin: Origin, kind: string, description: string): (r: string)
    ensures description != "" ==> r == ShortDescription(description)
    ensures description == "" && origin == FundOrigin ==> r == (if kind == "deposit" then "入金" else "出金")
    ensures description == "" && origin == BusinessOrigin ==> r == ""
  {
    if description != "" then ShortDescription(description)
    else if origin == FundOrigin then (if kind == "deposit" then "入金" else "出金")
    else ""
  }

  /** The row of a cash record. */
  function FundRow(r: FundRecord): (row: Row)
    ensures row.origin == FundOrigin && row.kind == r.kind && row.currency == Some(r.currency)
    ensures row.amount == Some(r.amount) && row.status == r.status
    ensures row.sortTime == SortTime(r.timestamp, r.createTime)
  {
    Row(FundOrigin, r.kind, r.id, Some(r.amount), Some(r.currency), r.status,
        SortTime(r.timestamp, r.createTime), r.createTime, r.description, None,
        RecordIcon(FundOrigin, r.kind), RecordTypeText(r.kind), AmountColorClass(FundOrigin, r.kind),
        DisplayDescription(FundOrigin, r.kind, r.description))
  }

  /** The row of a business transaction: absolute amount, status 'completed', no currency. */
  function BusinessRow(t: BusinessTransaction): (row: Row)
    ensures row.origin == BusinessOrigin && row.kind == t.kind && row.currency.None?
    ensures row.status == "completed"
    ensures t.amount.Some? ==> row.amount == Some(if t.amount.value < 0 then -t.amount.value else t.amount.value)
    ensures t.amount.None? ==> row.amount.None?
    ensures row.sortTime == SortTime(t.timestamp, t.createTime)
  {
    var amount := if t.amount.Some? then Some(if t.amount.value < 0 then -t.amount.value else t.amount.value) else None;
    var shownType := BusinessTypeLabel(t.kind);
    Row(BusinessOrigin, t.kind, t.id, amount, None, "completed",
        SortTime(t.timestamp, t.createTime), t.createTime, t.description, Some(shownType),
        RecordIcon(BusinessOrigin, t.kind), RecordTypeText(shownType), AmountColorClass(BusinessOrigin, t.kind),
        DisplayDescription(BusinessOrigin, t.kind, t.description))
  }

  /**
   * The colour of a business row agrees with the sign of the transaction in
   * the ledger fold, for a positive amount and non-negative fees.
   */
  lemma ColorAgreesWithLedger(t: BusinessTransaction)
    requires Or0(t.amount) > 0 && Or0(t.fees) >= 0
    ensures BusinessRow(t).colorClass == "positive" <==> BusinessEffect(t) > 0
    ensures BusinessRow(t).colorClass == "negative" <==> BusinessEffect(t) < 0
    ensures BusinessRow(t).colorClass == "business" <==> t.kind !in BusinessKinds
  {
  }

  /** A business row never gets a type text of its own unless its type is literally a cash type. */
  lemma BusinessTypeTextUnknown(t: BusinessTransaction)
    requires t.kind != "deposit" && t.kind != "withdraw"
    ensures BusinessRow(t).typeText == "未知类型"
  {
  }

  /** `shouldIncludeType`. */
  predicate ShouldIncludeType(filterType: string, kind: string) {
    if filterType == "all" then true
    else if filterType == "business" then kind != "deposit" && kind != "withdraw"
    else filterType == kind
  }

  function IncludedType(filterType: string): FundRecord -> bool {
    (r: FundRecord) => ShouldIncludeType(filterType, r.kind)
  }

  /**
   * The rows `loadRecords` gathers: the account's cash records of an
   * included type, when either cash type is included, followed by all of
   * its business transactions, when 'business' is included.
   */
  function CollectRows(records: seq<FundRecord>, transactions: seq<BusinessTransaction>, filterType: string): (rows: seq<Row>)
    ensures var cash := if ShouldIncludeType(filterType, "deposit") || ShouldIncludeType(filterType, "withdraw")
                        then Map(Filter(records, IncludedType(filterType)), FundRow) else [];
            var business := if ShouldIncludeType(filterType, "business") then Map(transactions, BusinessRow) else [];
            rows == cash + business
    ensures filterType == "business" ==> |rows| == |transactions| && forall k :: 0 <= k < |rows| ==> rows[k].origin == BusinessOrigin
  {
    var cash := if ShouldIncludeType(filterType, "deposit") || ShouldIncludeType(filterType, "withdraw")
                then Map(Filter(records, IncludedType(filterType)), FundRow) else [];
    var business := if ShouldIncludeType(filterType, "business") then Map(transactions, BusinessRow) else [];
    cash + business
  }

  /** Choosing one cash type shows only cash records of that type. */
  lemma CashTypeFilterShowsThatType(records: seq<FundRecord>, transactions: seq<BusinessTransaction>, filterType: string)
    requires filterType == "deposit" || filterType == "withdraw"
    ensures var rows := CollectRows(records, transactions, filterType);
      forall k :: 0 <= k < |rows| ==> rows[k].origin == FundOrigin && rows[k].kind == filterType
  {
    var kept := Filter(records, IncludedType(filterType));
    var rows := CollectRows(records, transactions, filterType);
    assert rows == Map(kept, FundRow);
    FilterMembers(records, IncludedType(filterType));
    forall k | 0 <= k < |rows|
      ensures rows[k].origin == FundOrigin && rows[k].kind == filterType
    {
      assert kept[k] in kept;
    }
  }

  /** The width of a date window in milliseconds; `None` for 'all' and for unknown choices. */
  function WindowLength(dateRange: string): (w: Option<int>)
    ensures w.Some? ==> w.value > 0
  {
    var day := 24 * 60 * 60 * 1000;
    if dateRange == "week" then Some(7 * day)
    else if dateRange == "month" then Some(30 * day)
    else if dateRange == "quarter" then Some(90 * day)
    else if dateRange == "year" then Some(365 * day)
    else None
  }

  /** `isInDateRange`: within the chosen window before `now`, bounds included. */
  predicate InDateRange(dateRange: string, now: int, time: int) {
    var w := WindowLength(dateRange);
    w.None? || now - time <= w.value
  }

  /** Each window contains the narrower ones: a row of the last week is a row of the last month, quarter and year. */
  lemma WindowsNested(now: int, time: int)
    ensures InDateRange("week", now, time) ==> InDateRange("month", now, time)
    ensures InDateRange("month", now, time) ==> InDateRange("quarter", now, time)
    ensures InDateRange("quarter", now, time) ==> InDateRange("year", now, time)
    ensures InDateRange("year", now, time) ==> InDateRange("all", now, time)
  {
  }

  /** The test `applyFilters` applies to each row. */
  function Matches(f: Filters, now: int): Row -> bool {
    (row: Row) =>
      (f.filterCurrency == "all" || row.currency == Some(f.filterCurrency)) &&
      (f.filterStatus == "all" || row.status == f.filterStatus) &&
      InDateRange(f.dateRange, now, row.sortTime)
  }

  /** `applyFilters`: the rows that pass the currency, status and date tests, in their order. */
  function ApplyFilters(rows: seq<Row>, f: Filters, now: int): (r: seq<Row>)
    ensures |r| <= |rows|
    ensures forall row :: row in r <==> row in rows && Matches(f, now)(row)
  {
    FilterMembers(rows, Matches(f, now));
    Filter(rows, Matches(f, now))
  }

  /** With every filter at 'all', nothing is filtered out. */
  lemma NoFiltersKeepAll(rows: seq<Row>, now: int)
    ensures ApplyFilters(rows, Filters("all", "all", "all", "all"), now) == rows
  {
    FilterAll(rows, Matches(Filters("all", "all", "all", "all"), now));
  }

  /** Business rows have no currency, so choosing any one currency hides all of them. */
  lemma CurrencyFilterHidesBusiness(rows: seq<Row>, f: Filters, now: int)
    requires f.filterCurrency != "all"
    ensures forall row :: row in ApplyFilters(rows, f, now) ==> row.currency.Some?
  {
  }

  /** The type priority of the second sort key: main trades, then fees, then refunds, then the rest. */
  function Priority(kind: string): (p: int)
    ensures 1 <= p <= 4
  {
    if kind == "sell" || kind == "allot" then 1
    else if kind == "fee_deduction" then 2
    else if kind == "allot_refund" || kind == "fee_refund" || kind == "sell_refund" then 3
    else 4
  }

  /** The last sort key: `description || displayDescription`. */
  function DescKey(row: Row): string {
    if row.description != "" then row.description else row.displayDescription
  }

  /**
   * The comparator of `loadRecords`, as "a may come before b": later sort
   * time first, then lower type priority, then later creation time, then
   * the larger id, then the larger description.
   */
  predicate RowLe(a: Row, b: Row) {
    if a.sortTime != b.sortTime then a.sortTime > b.sortTime
    else if Priority(a.kind) != Priority(b.kind) then Priority(a.kind) < Priority(b.kind)
    else if a.createTime != b.createTime then a.createTime > b.createTime
    else if a.id != b.id then StrLe(b.id, a.id)
    else StrLe(DescKey(b), DescKey(a))
  }

  /** A strict step of the string order composes with another. */
  lemma StrLtTransitive(a: string, b: string, c: string)
    requires StrLe(a, b) && a != b && StrLe(b, c) && b != c
    ensures StrLe(a, c) && a != c
  {
    StrLeTransitive(a, b, c);
    if a == c {
      StrLeAntisymmetric(a, b);
    }
  }

  lemma RowLeTotal(a: Row, b: Row)
    ensures RowLe(a, b) || RowLe(b, a)
  {
    StrLeTotal(a.id, b.id);
    StrLeTotal(DescKey(a), DescKey(b));
  }

  lemma RowLeTransitive(a: Row, b: Row, c: Row)
    requires RowLe(a, b) && RowLe(b, c)
    ensures RowLe(a, c)
  {
    if a.sortTime == b.sortTime == c.sortTime && Priority(a.kind) == Priority(b.kind) == Priority(c.kind) &&
       a.createTime == b.createTime == c.createTime {
      if a.id != b.id && b.id != c.id {
        StrLtTransitive(c.id, b.id, a.id);
      } else if a.id == b.id && b.id == c.id {
        StrLeTransitive(DescKey(c), DescKey(b), DescKey(a));
      }
    }
  }

  /** The comparator is a total preorder, so sorting by it is well defined. */
  lemma RowLeTotalPreorder()
    ensures TotalPreorder(RowLe)
  {
    forall a: Row, b: Row
      ensures RowLe(a, b) || RowLe(b, a)
    {
      RowLeTotal(a, b);
    }
    forall a: Row, b: Row, c: Row | RowLe(a, b) && RowLe(b, c)
      ensures RowLe(a, c)
    {
      RowLeTransitive(a, b, c);
    }
  }

  /**
   * The full list `loadRecords` pages through: the account's rows, filtered,
   * then sorted newest first.
   */
  function LoadList(records: seq<FundRecord>, transactions: seq<BusinessTransaction>, accountId: string,
                    f: Filters, now: int): (list: seq<Row>)
    ensures var rows := ApplyFilters(CollectRows(RecordsOf(records, accountId), TransactionsOf(transactions, accountId), f.filterType), f, now);
      multiset(list) == multiset(rows) && SortedBy(list, RowLe)
  {
    RowLeTotalPreorder();
    SortBy(ApplyFilters(CollectRows(RecordsOf(records, accountId), TransactionsOf(transactions, accountId), f.filterType), f, now), RowLe)
  }

  /** `Math.min(n, |s|)`, the length of a clamped prefix. */
  function Clamp(n: int, len: int): int {
    if n < len then n else len
  }

  /** The page's paging state and the rows on screen. */
  class FundDetailPage {
    var currentPage: int
    var hasMore: bool
    var shown: seq<Row>

    ghost predicate Valid()
      reads this
    {
      currentPage >= 1
    }

    /** The rows on screen are exactly the first `currentPage` pages of the list. */
    ghost predicate ShowsPrefixOf(list: seq<Row>)
      reads this
    {
      Valid() &&
      shown == list[..Clamp(currentPage * PageSize, |list|)] &&
      hasMore == (currentPage * PageSize < |list|)
    }

    constructor()
      ensures Valid() && currentPage == 1 && hasMore && shown == []
    {
      currentPage := 1;
      hasMore := true;
      shown := [];
    }

    /**
     * `loadRecords(append)`: an appending load adds page `currentPage`; a
     * fresh load shows the first `currentPage` pages and then sets
     * `currentPage` back to 1.
     */
    method LoadRecords(list: seq<Row>, append: bool)
      requires Valid()
      modifies this
      ensures Valid()
      ensures hasMore == (old(currentPage) * PageSize < |list|)
      ensures append ==>
        currentPage == old(currentPage) &&
        shown == old(shown) + Slice(list, (old(currentPage) - 1) * PageSize, old(currentPage) * PageSize)
      ensures !append ==> currentPage == 1 && shown == Slice(list, 0, old(currentPage) * PageSize)
    {
      var startIndex := if append then (currentPage - 1) * PageSize else 0;
      var endIndex := currentPage * PageSize;
      var page := Slice(list, startIndex, endIndex);
      hasMore := endIndex < |list|;
      if append {
        shown := shown + page;
      } else {
        shown := page;
        currentPage := 1;
      }
    }

    /** `onShow`, `applyFilter` and `onPullDownRefresh`: back to page 1 and reload. */
    method Refresh(list: seq<Row>)
      requires Valid()
      modifies this
      ensures ShowsPrefixOf(list) && currentPage == 1
    {
      currentPage := 1;
      hasMore := true;
      LoadRecords(list, false);
    }

    /** `onReachBottom`: when more rows remain and no load is running, append the next page. */
    method OnReachBottom(list: seq<Row>, isLoading: bool)
      requires Valid()
      modifies this
      ensures Valid()
      ensures old(hasMore) && !isLoading ==>
        currentPage == old(currentPage) + 1 &&
        shown == old(shown) + Slice(list, old(currentPage) * PageSize, (old(currentPage) + 1) * PageSize) &&
        hasMore == ((old(currentPage) + 1) * PageSize < |list|)
      ensures !(old(hasMore) && !isLoading) ==> currentPage == old(currentPage) && shown == old(shown) && hasMore == old(hasMore)
      ensures old(ShowsPrefixOf(list)) ==> ShowsPrefixOf(list)
    {
      if hasMore && !isLoading {
        var p := currentPage;
        ghost var prefix := old(ShowsPrefixOf(list));
        currentPage := currentPage + 1;
        LoadRecords(list, true);
        if prefix {
          assert p * PageSize < |list|;
          assert shown == list[..p * PageSize] + Slice(list, p * PageSize, (p + 1) * PageSize);
          assert shown == list[..Clamp((p + 1) * PageSize, |list|)];
        }
      }
    }

    /**
     * `onDeleteRecord` as written: after the deletion it reloads without
     * first setting `currentPage` back to 1, so a page scrolled past page 1
     * shows all its pages but counts itself on page 1.
     */
    method OnDeleteRecordAsWritten(list: seq<Row>)
      requires Valid()
      modifies this
      ensures currentPage == 1 && shown == Slice(list, 0, old(currentPage) * PageSize)
      ensures hasMore == (old(currentPage) * PageSize < |list|)
      ensures old(currentPage) > 1 && PageSize < |list| ==> !ShowsPrefixOf(list)
    {
      LoadRecords(list, false);
    }

    /**
     * Deleting a record while on page 3 and then scrolling to the bottom, as
     * written: with more than 60 rows left, the scroll appends rows 20 to 39 a
     * second time.
     */
    method DeleteThenScrollAsWritten(list: seq<Row>)
      requires Valid() && currentPage == 3 && |list| > 3 * PageSize
      modifies this
      ensures currentPage == 2 && |shown| == 4 * PageSize
      ensures shown[PageSize..2 * PageSize] == shown[3 * PageSize..] == list[PageSize..2 * PageSize]
    {
      OnDeleteRecordAsWritten(list);
      OnReachBottom(list, false);
    }

    /** `onDeleteRecord` with the reload starting from page 1, as `onShow` does: the page again shows the first page of the list. */
    method OnDeleteRecord(list: seq<Row>)
      requires Valid()
      modifies this
      ensures ShowsPrefixOf(list) && currentPage == 1
    {
      Refresh(list);
    }
  }
}
