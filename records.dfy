/**
 * The records the pages keep in local storage: accounts, and stocks (one
 * IPO subscription of one account). Amounts of money are whole cents;
 * prices are cents per share.
 */
module Records {
  import opened Common
  import Seqs
  import Sorting

  /** An entry of the `accounts` list. */
  datatype Account = Account(id: string, name: string, isDefault: bool, createTime: int)

  /** The fee breakdown of a sale, each part in cents, as stored in `sellFeeDetails`. */
  datatype SellFees = SellFees(
    commission: int, stampDuty: int, tradingLevy: int, tradingFee: int,
    settlementFee: int, totalFee: int)

  /**
   * An entry of the `stocks` list. Different pages write different subsets
   * of the fields; `None` is a field that the writing page did not set (or a
   * number that did not parse).
   */
  datatype Stock = Stock(
    id: string,
    accountId: Option<string>,
    stockName: string,
    stockCode: Option<string>,
    costPrice: Option<int>,
    issuePrice: Option<int>,
    subscriptionHands: int,
    subscriptionShares: Option<int>,
    subscriptionDate: Option<string>,
    subscriptionMethod: Option<string>,
    subscriptionTime: Option<int>,
    serviceFee: Option<int>,
    extraCost: Option<int>,
    packageFee: Option<int>,
    isFinancing: bool,
    totalAmount: Option<int>,
    status: string,
    createTime: int,
    winningShares: int,
    winningTime: Option<int>,
    sellPrice: int,
    sellShares: int,
    sellFee: int,
    otherFee: int,
    sellTime: Option<int>,
    profit: Option<int>,
    sellFeeDetails: Option<SellFees>,
    winningFeeTotal: Option<int>)

  /** The account a stock belongs to: `stock.accountId || 'default'`. */
  function OwnerOf(s: Stock): (owner: string)
    ensures s.accountId.Some? && s.accountId.value != "" ==> owner == s.accountId.value
    ensures s.accountId.None? || s.accountId.value == "" ==> owner == "default"
  {
    if s.accountId.Some? && s.accountId.value != "" then s.accountId.value else "default"
  }

  /** The identifier match used by `stocks.findIndex(item => item.id === id)`. */
  function StockWithId(id: string): Stock -> bool {
    (s: Stock) => s.id == id
  }

  /** The identifier match used by `accounts.find(acc => acc.id === id)`. */
  function AccountWithId(id: string): Account -> bool {
    (a: Account) => a.id == id
  }

  /** The account created when none exist (pages/index/index.js, pages/profile/profile.js). */
  function DefaultAccount(now: int): (a: Account)
    ensures a.id == "default" && a.isDefault
  {
    Account("default", "默认账户", true, now)
  }

  /** `accounts.find(acc => acc.id === id) || accounts[0]`. */
  function CurrentAccount(accounts: seq<Account>, id: string): (a: Option<Account>)
    ensures a.None? <==> |accounts| == 0
    ensures (exists i :: 0 <= i < |accounts| && accounts[i].id == id) ==> a.Some? && a.value.id == id
    ensures (forall i :: 0 <= i < |accounts| ==> accounts[i].id != id) && |accounts| > 0 ==> a == Some(accounts[0])
    ensures a.Some? ==> a.value in accounts
    ensures Seqs.FirstIndex(accounts, AccountWithId(id)) >= 0 ==> a == Some(accounts[Seqs.FirstIndex(accounts, AccountWithId(id))])
  {
    var i := Seqs.FirstIndex(accounts, AccountWithId(id));
    if i >= 0 then Some(accounts[i])
    else if |accounts| > 0 then Some(accounts[0])
    else None
  }

  /** The comparator `(a, b) => b.createTime - a.createTime`: newest first. */
  predicate NewerOrSame(a: Stock, b: Stock) {
    a.createTime >= b.createTime
  }

  /** Newest-first is a total preorder, so it can drive `SortBy`. */
  lemma NewerOrSameIsPreorder()
    ensures Sorting.TotalPreorder(NewerOrSame)
  {
  }

  /** Storage read with a default: `wx.getStorageSync('currentAccountId') || 'default'`. */
  function StoredIdOrDefault(stored: string): string {
    if stored == "" then "default" else stored
  }

  /** The shared `stocks` list that several pages read, change and write back. */
  class StockStore {
    var stocks: seq<Stock>

    constructor(stored: seq<Stock>)
      ensures stocks == stored
    {
      stocks := stored;
    }
  }

  /** The stored `accounts` list and the stored `currentAccountId` (`""` when unset). */
  class AccountStore {
    var accounts: seq<Account>
    var currentAccountId: string

    constructor(stored: seq<Account>, storedId: string)
      ensures accounts == stored && currentAccountId == storedId
    {
      accounts := stored;
      currentAccountId := storedId;
    }
  }
}
