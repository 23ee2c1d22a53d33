/**
 * The home page (pages/index/index.js): the current account, and that
 * account's stocks split into those still being subscribed and those
 * finished, with the total profit of the finished ones.
 */
module IndexPage {
  import opened Common
  import opened Seqs
  import opened Sorting
  import opened Records

  /** How many finished stocks the page lists. */
  const RecentCount := 5

  /** `(stock.accountId || 'default') === accountId`. */
  function OwnedBy(accountId: string): Stock -> bool {
    (s: Stock) => OwnerOf(s) == accountId
  }

  /** `stock.status === 'ongoing'`. */
  function Ongoing(): Stock -> bool {
    (s: Stock) => s.status == "ongoing"
  }

  /** Every other status counts as finished. */
  function Finished(): Stock -> bool {
    (s: Stock) => s.status != "ongoing"
  }

  /**
   * What one finished stock adds to the total profit: its recorded profit;
   * without one, minus its allotment fees when nothing was allotted; else 0.
   */
  function ProfitContribution(s: Stock): int {
    if s.profit.Some? then s.profit.value
    else if s.winningShares == 0 then -Or0(s.winningFeeTotal)
    else 0
  }

  /** The total profit of a list of finished stocks. */
  function TotalProfit(finished: seq<Stock>): int {
    SumOf(finished, ProfitContribution)
  }

  /** The three kinds of contribution of a finished stock. */
  lemma ProfitContributionCases(s: Stock)
    ensures s.profit.Some? ==> ProfitContribution(s) == s.profit.value
    ensures s.profit.None? && s.winningShares == 0 ==> ProfitContribution(s) == -Or0(s.winningFeeTotal)
    ensures s.profit.None? && s.winningShares != 0 ==> ProfitContribution(s) == 0
  {
  }

  /** The total does not depend on the order the finished stocks are listed in, so sorting the list keeps it. */
  lemma TotalProfitOrderFree(a: seq<Stock>, b: seq<Stock>)
    requires multiset(a) == multiset(b)
    ensures TotalProfit(a) == TotalProfit(b)
  {
    SumPermutation(a, b, ProfitContribution);
  }

  /** Every stock of the account is either ongoing or finished, so the two counts add up to the account's stocks. */
  lemma CountsCoverAccount(mine: seq<Stock>)
    ensures |Filter(mine, Ongoing())| + |Filter(mine, Finished())| == |mine|
  {
    FilterPartition(mine, Ongoing(), Finished());
  }

  /** Adding a stock of another account changes nothing the page shows. */
  lemma OtherAccountIgnored(stocks: seq<Stock>, s: Stock, accountId: string)
    requires OwnerOf(s) != accountId
    ensures Filter(stocks + [s], OwnedBy(accountId)) == Filter(stocks, OwnedBy(accountId))
  {
    FilterConcat(stocks, [s], OwnedBy(accountId));
    FilterSingleton(s, OwnedBy(accountId));
  }

  /** The current account's stocks: `loadData`'s `accountStocks`. */
  function AccountStocks(stocks: seq<Stock>, accountId: string): seq<Stock> {
    Filter(stocks, OwnedBy(accountId))
  }

  /** The ongoing list as shown: the account's ongoing stocks, newest first. */
  function OngoingView(stocks: seq<Stock>, accountId: string): seq<Stock> {
    NewerOrSameIsPreorder();
    SortBy(Filter(AccountStocks(stocks, accountId), Ongoing()), NewerOrSame)
  }

  /** The recent list as shown: the first five of the account's finished stocks, newest first. */
  function RecentView(stocks: seq<Stock>, accountId: string): seq<Stock> {
    NewerOrSameIsPreorder();
    Slice(SortBy(Filter(AccountStocks(stocks, accountId), Finished()), NewerOrSame), 0, RecentCount)
  }

  /** The ongoing list is exactly the account's ongoing stocks, rearranged newest first. */
  lemma OngoingViewShape(stocks: seq<Stock>, accountId: string)
    ensures multiset(OngoingView(stocks, accountId)) == multiset(Filter(AccountStocks(stocks, accountId), Ongoing()))
    ensures SortedBy(OngoingView(stocks, accountId), NewerOrSame)
    ensures forall i :: 0 <= i < |OngoingView(stocks, accountId)| ==>
      OwnerOf(OngoingView(stocks, accountId)[i]) == accountId && OngoingView(stocks, accountId)[i].status == "ongoing"
  {
    var mine := AccountStocks(stocks, accountId);
    var view := OngoingView(stocks, accountId);
    forall i | 0 <= i < |view|
      ensures OwnerOf(view[i]) == accountId && view[i].status == "ongoing"
    {
      var x := view[i];
      assert x in multiset(Filter(mine, Ongoing()));
      assert x in Filter(mine, Ongoing());
      FilterMembers(mine, Ongoing());
      assert x in mine && Ongoing()(x);
      FilterMembers(stocks, OwnedBy(accountId));
      assert OwnedBy(accountId)(x);
    }
  }

  /** The recent list holds the five newest finished stocks of the account (fewer when there are fewer), newest first. */
  lemma RecentViewShape(stocks: seq<Stock>, accountId: string)
    ensures var n := |Filter(AccountStocks(stocks, accountId), Finished())|;
      |RecentView(stocks, accountId)| == if n < RecentCount then n else RecentCount
    ensures SortedBy(RecentView(stocks, accountId), NewerOrSame)
    ensures forall i :: 0 <= i < |RecentView(stocks, accountId)| ==>
      OwnerOf(RecentView(stocks, accountId)[i]) == accountId && RecentView(stocks, accountId)[i].status != "ongoing"
  {
    var mine := AccountStocks(stocks, accountId);
    var finished := Filter(mine, Finished());
    NewerOrSameIsPreorder();
    var sorted := SortBy(finished, NewerOrSame);
    var view := RecentView(stocks, accountId);
    assert |sorted| == |finished| by {
      assert |multiset(sorted)| == |multiset(finished)|;
    }
    forall i, j | 0 <= i < j < |view|
      ensures NewerOrSame(view[i], view[j])
    {
      assert view[i] == sorted[i] && view[j] == sorted[j];
    }
    forall i | 0 <= i < |view|
      ensures OwnerOf(view[i]) == accountId && view[i].status != "ongoing"
    {
      var x := view[i];
      assert x == sorted[i];
      assert x in multiset(finished);
      assert x in finished;
      FilterMembers(mine, Finished());
      assert x in mine && Finished()(x);
      FilterMembers(stocks, OwnedBy(accountId));
      assert OwnedBy(accountId)(x);
    }
  }

  /**
   * The recent list is drawn from the account's finished stocks, and every
   * finished stock it leaves out is no newer than any stock it shows.
   */
  lemma RecentViewOmitsOlder(stocks: seq<Stock>, accountId: string)
    ensures multiset(RecentView(stocks, accountId)) <= multiset(Filter(AccountStocks(stocks, accountId), Finished()))
    ensures forall x: Stock, i ::
      x in multiset(Filter(AccountStocks(stocks, accountId), Finished())) - multiset(RecentView(stocks, accountId)) &&
      0 <= i < |RecentView(stocks, accountId)| ==>
        x.createTime <= RecentView(stocks, accountId)[i].createTime
  {
    var finished := Filter(AccountStocks(stocks, accountId), Finished());
    NewerOrSameIsPreorder();
    var sorted := SortBy(finished, NewerOrSame);
    var view := RecentView(stocks, accountId);
    assert view == sorted[..|view|];
    SortedPrefixKeepsFirst(sorted, |view|, NewerOrSame);
  }

  /** Splits the account's stocks into ongoing and finished, summing the finished ones' profit, in one pass. */
  method Partition(mine: seq<Stock>) returns (ongoing: seq<Stock>, finished: seq<Stock>, total: int)
    ensures ongoing == Filter(mine, Ongoing())
    ensures finished == Filter(mine, Finished())
    ensures total == TotalProfit(finished)
  {
    ongoing, finished, total := [], [], 0;
    for i := 0 to |mine|
      invariant ongoing == Filter(mine[..i], Ongoing())
      invariant finished == Filter(mine[..i], Finished())
      invariant total == TotalProfit(finished)
    {
      assert mine[..i + 1][..i] == mine[..i];
      var s := mine[i];
      if s.status == "ongoing" {
        ongoing := ongoing + [s];
      } else {
        assert (finished + [s])[..|finished|] == finished;
        finished := finished + [s];
        total := total + ProfitContribution(s);
      }
    }
    assert mine[..|mine|] == mine;
  }

  /**
   * The account the page data starts with, `{ id: 'default', name: '默认账户' }`;
   * the two fields the literal leaves out are filled with `false` and 0.
   */
  const PlaceholderAccount: Account := Account("default", "默认账户", false, 0)

  /** The page's data: the current account and what is shown for it. */
  class IndexPage {
    var currentAccount: Account
    var ongoingStocks: seq<Stock>
    var recentFinished: seq<Stock>
    var ongoingCount: int
    var finishedCount: int
    var totalProfit: int

    /** The initial data: a placeholder default account with nothing shown. */
    constructor()
      ensures currentAccount == PlaceholderAccount
      ensures ongoingStocks == [] && recentFinished == []
      ensures ongoingCount == 0 && finishedCount == 0 && totalProfit == 0
    {
      currentAccount := PlaceholderAccount;
      ongoingStocks, recentFinished := [], [];
      ongoingCount, finishedCount, totalProfit := 0, 0, 0;
    }

    /**
     * `loadCurrentAccount`: with no stored accounts, stores the single
     * default account; then selects the account with the stored id, or the
     * first one.
     */
    method LoadCurrentAccount(store: AccountStore, now: int)
      modifies this`currentAccount, store`accounts
      ensures store.accounts == if |old(store.accounts)| == 0 then [DefaultAccount(now)] else old(store.accounts)
      ensures Some(currentAccount) == CurrentAccount(store.accounts, StoredIdOrDefault(store.currentAccountId))
      ensures |old(store.accounts)| == 0 ==> currentAccount == DefaultAccount(now)
    {
      if |store.accounts| == 0 {
        store.accounts := [DefaultAccount(now)];
      }
      var found := CurrentAccount(store.accounts, StoredIdOrDefault(store.currentAccountId));
      currentAccount := found.value;
      if |old(store.accounts)| == 0 {
        var id := StoredIdOrDefault(store.currentAccountId);
        if id != "default" {
          assert store.accounts[0].id != id;
        }
      }
    }

    /**
     * `loadData`: the current account's ongoing stocks newest first, its
     * five newest finished ones, both counts (which together cover the
     * account's stocks) and the total profit of the finished ones.
     */
    method LoadData(store: StockStore)
      modifies this`ongoingStocks, this`recentFinished, this`ongoingCount, this`finishedCount, this`totalProfit
      ensures ongoingStocks == OngoingView(store.stocks, currentAccount.id)
      ensures recentFinished == RecentView(store.stocks, currentAccount.id)
      ensures ongoingCount == |Filter(AccountStocks(store.stocks, currentAccount.id), Ongoing())|
      ensures finishedCount == |Filter(AccountStocks(store.stocks, currentAccount.id), Finished())|
      ensures ongoingCount + finishedCount == |AccountStocks(store.stocks, currentAccount.id)|
      ensures totalProfit == TotalProfit(Filter(AccountStocks(store.stocks, currentAccount.id), Finished()))
    {
      ShowStats(store);
      ShowLists(store);
    }

    /** The part of `loadData` that fills the counts and the total profit. */
    method ShowStats(store: StockStore)
      modifies this`ongoingCount, this`finishedCount, this`totalProfit
      ensures ongoingCount == |Filter(AccountStocks(store.stocks, currentAccount.id), Ongoing())|
      ensures finishedCount == |Filter(AccountStocks(store.stocks, currentAccount.id), Finished())|
      ensures ongoingCount + finishedCount == |AccountStocks(store.stocks, currentAccount.id)|
      ensures totalProfit == TotalProfit(Filter(AccountStocks(store.stocks, currentAccount.id), Finished()))
    {
      var mine := AccountStocks(store.stocks, currentAccount.id);
      var ongoing, finished, total := Partition(mine);
      CountsCoverAccount(mine);
      ongoingCount := |ongoing|;
      finishedCount := |finished|;
      totalProfit := total;
    }

    /** The part of `loadData` that fills the two sorted lists. */
    method ShowLists(store: StockStore)
      modifies this`ongoingStocks, this`recentFinished
      ensures ongoingStocks == OngoingView(store.stocks, currentAccount.id)
      ensures recentFinished == RecentView(store.stocks, currentAccount.id)
    {
      ongoingStocks := OngoingView(store.stocks, currentAccount.id);
      recentFinished := RecentView(store.stocks, currentAccount.id);
    }
  }
}
