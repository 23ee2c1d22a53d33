/**
 * The batch entry wizard (pages/batch-input/batch-input.js): pick the
 * accounts that have not used a template yet, enter each account's
 * subscription, and create one stock per account in a single pass. Step 1
 * selects accounts, step 2 takes the entries, step 3 confirms.
 */
module BatchInput {
  import opened Common
  import opened Seqs
  import opened JsText
  import opened Records
  import opened Ledger
  import opened Templates

  /** One account's entry: the subscription date, the number of hands and the package fee, as typed. */
  datatype Entry = Entry(subscriptionDate: string, subscriptionHands: string, packageFee: string)

  /** The entry fields `applyToAll` can copy. */
  datatype Field = DateField | HandsField | PackageFeeField

  /** The transaction type the batch posts; the ledger's sign table has no such type. */
  const SubscriptionKind := "subscription"

  /** The entry `initInputData` gives every account: today's date, no hands, a zero package fee. */
  function DefaultEntry(today: string): Entry {
    Entry(today, "", "0")
  }

  function FieldOf(e: Entry, f: Field): string {
    match f
    case DateField => e.subscriptionDate
    case HandsField => e.subscriptionHands
    case PackageFeeField => e.packageFee
  }

  /** `{ ...entry, [field]: value }`. */
  function WithField(e: Entry, f: Field, value: string): (r: Entry)
    ensures FieldOf(r, f) == value
    ensures forall g :: g != f ==> FieldOf(r, g) == FieldOf(e, g)
  {
    match f
    case DateField => e.(subscriptionDate := value)
    case HandsField => e.(subscriptionHands := value)
    case PackageFeeField => e.(packageFee := value)
  }

  /**
   * The hands check of `validateInputData`: refused when empty or when it
   * parses to a number that is not positive. A value that does not parse at
   * all compares false with 0 and so passes.
   */
  predicate HandsAccepted(hands: string) {
    hands != "" && !(ParseInt(hands).Some? && ParseInt(hands).value <= 0)
  }

  /** Every one of the ids names some listed account. */
  predicate EveryIdListed(accounts: seq<Account>, ids: seq<string>) {
    forall i :: 0 <= i < |ids| ==> exists j :: 0 <= j < |accounts| && accounts[j].id == ids[i]
  }

  /** `r` holds, in the order of the ids, the first listed account with each id. */
  predicate FirstAccountsOf(accounts: seq<Account>, ids: seq<string>, r: seq<Account>) {
    |r| == |ids| &&
    forall k :: 0 <= k < |ids| ==>
      var i := FirstIndex(accounts, AccountWithId(ids[k]));
      0 <= i && r[k] == accounts[i]
  }

  /** The accounts `initInputData` collects: for each id in order, the first account with that id, if any. */
  function FoundAccounts(accounts: seq<Account>, ids: seq<string>): (r: seq<Account>)
    ensures |r| <= |ids|
    ensures forall a :: a in r ==> a in accounts && a.id in ids
    ensures EveryIdListed(accounts, ids) ==> FirstAccountsOf(accounts, ids, r)
  {
    if |ids| == 0 then []
    else
      var n := |ids| - 1;
      var i := FirstIndex(accounts, AccountWithId(ids[n]));
      var rest := FoundAccounts(accounts, ids[..n]);
      assert forall k :: 0 <= k < n ==> ids[..n][k] == ids[k];
      assert EveryIdListed(accounts, ids) ==> FirstAccountsOf(accounts, ids, rest + [accounts[i]]) by {
        if EveryIdListed(accounts, ids) {
          FirstAccountsAppend(accounts, ids, rest);
        }
      }
      rest + (if i >= 0 then [accounts[i]] else [])
  }

  /** When every id is listed, the first accounts of all but the last id, then the last id's, are all the first accounts. */
  lemma FirstAccountsAppend(accounts: seq<Account>, ids: seq<string>, rest: seq<Account>)
    requires |ids| > 0 && EveryIdListed(accounts, ids)
    requires EveryIdListed(accounts, ids[..|ids| - 1]) ==> FirstAccountsOf(accounts, ids[..|ids| - 1], rest)
    ensures FirstIndex(accounts, AccountWithId(ids[|ids| - 1])) >= 0
    ensures FirstAccountsOf(accounts, ids, rest + [accounts[FirstIndex(accounts, AccountWithId(ids[|ids| - 1]))]])
  {
    var n := |ids| - 1;
    forall k | 0 <= k < n
      ensures exists j :: 0 <= j < |accounts| && accounts[j].id == ids[..n][k]
    {
      assert ids[..n][k] == ids[k];
    }
    var j :| 0 <= j < |accounts| && accounts[j].id == ids[n];
    assert AccountWithId(ids[n])(accounts[j]);
  }

  /** A default entry for each of the ids. */
  function DefaultMap(ids: seq<string>, today: string): map<string, Entry> {
    map id | id in ids :: DefaultEntry(today)
  }

  /** One more id adds its default entry. */
  lemma DefaultMapStep(ids: seq<string>, today: string, k: int)
    requires 0 <= k < |ids|
    ensures DefaultMap(ids[..k + 1], today) == DefaultMap(ids[..k], today)[ids[k] := DefaultEntry(today)]
  {
    assert ids[..k + 1] == ids[..k] + [ids[k]];
    var l, r := DefaultMap(ids[..k + 1], today), DefaultMap(ids[..k], today)[ids[k] := DefaultEntry(today)];
    assert l.Keys == r.Keys;
  }

  /** Collecting over one more id adds that id's first account, if it has one. */
  lemma FoundAccountsStep(accounts: seq<Account>, ids: seq<string>, k: int)
    requires 0 <= k < |ids|
    ensures var i := FirstIndex(accounts, AccountWithId(ids[k]));
      FoundAccounts(accounts, ids[..k + 1]) == FoundAccounts(accounts, ids[..k]) + (if i >= 0 then [accounts[i]] else [])
  {
    assert ids[..k + 1][..k] == ids[..k];
  }

  function AccountId(a: Account): string {
    a.id
  }

  /** The number of hands `parseInt` reads from the entry, `None` for `NaN`. */
  function HandsOf(e: Entry): Option<int> {
    ParseInt(e.subscriptionHands)
  }

  /** `parseFloat(data.packageFee || 0)`, in cents. */
  function PackageFeeOf(e: Entry): Option<int> {
    if e.packageFee == "" then Some(0) else ParseCents(e.packageFee)
  }

  /** The stock `processBatchInput` creates for one account: ongoing, nothing allotted or sold yet. */
  function BatchStock(t: Template, accountId: string, e: Entry, stockId: string, time: Option<int>, now: int): (s: Stock)
    ensures s.id == stockId && s.accountId == Some(accountId) && s.status == "ongoing"
    ensures s.stockName == t.stockName && s.issuePrice == t.issuePrice
    ensures HandsOf(e).Some? ==> s.subscriptionShares == Some(HandsOf(e).value * 100)
    ensures s.winningShares == 0 && s.sellPrice == 0 && s.profit == Some(0) && s.createTime == now
  {
    var hands := HandsOf(e);
    Stock(stockId, Some(accountId), t.stockName, Some(t.stockCode), None, t.issuePrice,
          Or0(hands), if hands.Some? then Some(hands.value * 100) else None,
          Some(e.subscriptionDate), Some("margin90"), time, None, None, PackageFeeOf(e),
          false, None, "ongoing", now, 0, None, 0, 0, 0, 0, None, Some(0), None, None)
  }

  /** `shares × issuePrice + packageFee`, `None` when any part is `NaN`. */
  function SubscriptionAmount(s: Stock): (amount: Option<int>)
    ensures amount.Some? <==> s.subscriptionShares.Some? && s.issuePrice.Some? && s.packageFee.Some?
    ensures amount.Some? ==> amount.value == s.subscriptionShares.value * s.issuePrice.value + s.packageFee.value
  {
    if s.subscriptionShares.Some? && s.issuePrice.Some? && s.packageFee.Some? then
      Some(s.subscriptionShares.value * s.issuePrice.value + s.packageFee.value)
    else None
  }

  /** The transaction posted for a new stock. */
  function Posting(s: Stock, accountId: string, nowText: string, timeText: string): (b: BusinessInput)
    ensures b.accountId == accountId && b.kind == SubscriptionKind && b.stockId == s.id
    ensures b.amount == SubscriptionAmount(s) && b.fees == s.packageFee && b.profitLoss == Some(0)
  {
    var shares := if s.subscriptionShares.Some? then IntToString(s.subscriptionShares.value) else "NaN";
    BusinessInput(accountId, SubscriptionKind, s.id, s.stockName, SubscriptionAmount(s), s.packageFee, Some(0),
                  "认购 " + s.stockName + " " + shares + "股", nowText, Some(timeText))
  }

  /** The text `new Date(...)` is given for an account's subscription time. */
  function TimeText(e: Entry): string {
    e.subscriptionDate + " 10:00"
  }

  /** The stocks the batch appends, one per selected account, in selection order. */
  function BatchStocks(t: Template, ids: seq<string>, data: map<string, Entry>, stockIds: seq<string>,
                       parseTime: string -> Option<int>, now: int): (r: seq<Stock>)
    requires forall id :: id in ids ==> id in data
    requires |stockIds| == |ids|
    ensures |r| == |ids|
  {
    if |ids| == 0 then []
    else
      var n := |ids| - 1;
      BatchStocks(t, ids[..n], data, stockIds[..n], parseTime, now) +
      [BatchStock(t, ids[n], data[ids[n]], stockIds[n], parseTime(TimeText(data[ids[n]])), now)]
  }

  /** The batch's `k`th stock is the one made for the `k`th selected account. */
  lemma {:induction false} BatchStocksAt(t: Template, ids: seq<string>, data: map<string, Entry>, stockIds: seq<string>,
                                         parseTime: string -> Option<int>, now: int, k: int)
    requires forall id :: id in ids ==> id in data
    requires |stockIds| == |ids|
    requires 0 <= k < |ids|
    ensures BatchStocks(t, ids, data, stockIds, parseTime, now)[k] ==
      BatchStock(t, ids[k], data[ids[k]], stockIds[k], parseTime(TimeText(data[ids[k]])), now)
  {
    var n := |ids| - 1;
    if k < n {
      assert ids[..n][k] == ids[k] && stockIds[..n][k] == stockIds[k];
      BatchStocksAt(t, ids[..n], data, stockIds[..n], parseTime, now, k);
    }
  }

  /**
   * The transactions the batch posts: one per selected account whose date
   * parsed. For an unparsable date the stock is still created, but building
   * the transaction throws and the account is counted as failed.
   */
  function BatchPostings(stocks: seq<Stock>, ids: seq<string>, data: map<string, Entry>, txIds: seq<string>,
                         parseTime: string -> Option<int>, now: int, nowText: string): (r: seq<BusinessTransaction>)
    requires forall id :: id in ids ==> id in data
    requires |stocks| == |ids| == |txIds|
  {
    if |ids| == 0 then []
    else
      var n := |ids| - 1;
      BatchPostings(stocks[..n], ids[..n], data, txIds[..n], parseTime, now, nowText) +
      (if parseTime(TimeText(data[ids[n]])).Some? then
         [NewTransaction(Posting(stocks[n], ids[n], nowText, TimeText(data[ids[n]])), txIds[n], now, Some(now))]
       else [])
  }

  /** Every transaction the batch posts has the type `'subscription'`. */
  lemma {:induction false} BatchPostingsKinds(stocks: seq<Stock>, ids: seq<string>, data: map<string, Entry>, txIds: seq<string>,
                                              parseTime: string -> Option<int>, now: int, nowText: string)
    requires forall id :: id in ids ==> id in data
    requires |stocks| == |ids| == |txIds|
    ensures forall k :: 0 <= k < |BatchPostings(stocks, ids, data, txIds, parseTime, now, nowText)| ==>
      BatchPostings(stocks, ids, data, txIds, parseTime, now, nowText)[k].kind == SubscriptionKind
  {
    if |ids| > 0 {
      var n := |ids| - 1;
      var front := BatchPostings(stocks[..n], ids[..n], data, txIds[..n], parseTime, now, nowText);
      var last := if parseTime(TimeText(data[ids[n]])).Some? then
        [NewTransaction(Posting(stocks[n], ids[n], nowText, TimeText(data[ids[n]])), txIds[n], now, Some(now))] else [];
      BatchPostingsKinds(stocks[..n], ids[..n], data, txIds[..n], parseTime, now, nowText);
      var r := BatchPostings(stocks, ids, data, txIds, parseTime, now, nowText);
      assert r == front + last;
      forall k | 0 <= k < |r|
        ensures r[k].kind == SubscriptionKind
      {
        if k < |front| {
          assert r[k] == front[k];
          assert front[k].kind == SubscriptionKind;
        } else {
          var b := Posting(stocks[n], ids[n], nowText, TimeText(data[ids[n]]));
          assert b.kind == SubscriptionKind;
          assert last == [NewTransaction(b, txIds[n], now, Some(now))];
          assert r[k] == last[k - |front|];
        }
      }
    }
  }

  /** How many of the accounts have a date that parses. */
  function Parsed(ids: seq<string>, data: map<string, Entry>, parseTime: string -> Option<int>): (n: nat)
    requires forall id :: id in ids ==> id in data
    ensures n <= |ids|
  {
    if |ids| == 0 then 0
    else Parsed(ids[..|ids| - 1], data, parseTime) + (if parseTime(TimeText(data[ids[|ids| - 1]])).Some? then 1 else 0)
  }

  /** The accounts among `ids` whose date parses: the ones the batch posts for. */
  function PostedAccounts(ids: seq<string>, data: map<string, Entry>, parseTime: string -> Option<int>): (r: set<string>)
    requires forall id :: id in ids ==> id in data
    ensures forall a :: a in r ==> a in ids
  {
    if |ids| == 0 then {}
    else
      var n := |ids| - 1;
      PostedAccounts(ids[..n], data, parseTime) + (if parseTime(TimeText(data[ids[n]])).Some? then {ids[n]} else {})
  }

  /** Transactions of types outside the sign table change nobody's recomputed funds, however many are appended. */
  lemma {:induction false} UnknownKindsIgnored(records: seq<FundRecord>, transactions: seq<BusinessTransaction>,
                                               extra: seq<BusinessTransaction>, accountId: string, now: int)
    requires forall k :: 0 <= k < |extra| ==> extra[k].kind !in BusinessKinds
    ensures Recomputed(records, transactions + extra, accountId, now) == Recomputed(records, transactions, accountId, now)
  {
    if |extra| > 0 {
      var n := |extra| - 1;
      UnknownKindsIgnored(records, transactions, extra[..n], accountId, now);
      assert transactions + extra == (transactions + extra[..n]) + [extra[n]];
      UnknownKindIgnored(records, transactions + extra[..n], extra[n], accountId, now);
    } else {
      assert transactions + extra == transactions;
    }
  }

  /** Appended `'subscription'` transactions change nobody's recomputed funds. */
  lemma SubscriptionsIgnored(records: seq<FundRecord>, transactions: seq<BusinessTransaction>,
                             extra: seq<BusinessTransaction>, accountId: string, now: int)
    requires forall k :: 0 <= k < |extra| ==> extra[k].kind == SubscriptionKind
    ensures Recomputed(records, transactions + extra, accountId, now) == Recomputed(records, transactions, accountId, now)
  {
    assert SubscriptionKind !in BusinessKinds;
    UnknownKindsIgnored(records, transactions, extra, accountId, now);
  }

  /** Everything the batch posts is of the type the sign table does not know, so no balance moves. */
  lemma BatchPostingsHaveNoEffect(records: seq<FundRecord>, transactions: seq<BusinessTransaction>,
                                  stocks: seq<Stock>, ids: seq<string>, data: map<string, Entry>, txIds: seq<string>,
                                  parseTime: string -> Option<int>, now: int, nowText: string, accountId: string)
    requires forall id :: id in ids ==> id in data
    requires |stocks| == |ids| == |txIds|
    ensures Recomputed(records, transactions + BatchPostings(stocks, ids, data, txIds, parseTime, now, nowText), accountId, now) ==
            Recomputed(records, transactions, accountId, now)
  {
    BatchPostingsKinds(stocks, ids, data, txIds, parseTime, now, nowText);
    SubscriptionsIgnored(records, transactions, BatchPostings(stocks, ids, data, txIds, parseTime, now, nowText), accountId, now);
  }

  /** The loop of `initInputData`: a default entry per id, and the accounts the ids name. */
  method DefaultEntries(accounts: seq<Account>, ids: seq<string>, today: string) returns (data: map<string, Entry>, found: seq<Account>)
    ensures forall id :: id in data <==> id in ids
    ensures forall id :: id in data ==> data[id] == DefaultEntry(today)
    ensures found == FoundAccounts(accounts, ids)
  {
    data, found := map[], [];
    for k := 0 to |ids|
      invariant data == DefaultMap(ids[..k], today)
      invariant found == FoundAccounts(accounts, ids[..k])
    {
      DefaultMapStep(ids, today, k);
      FoundAccountsStep(accounts, ids, k);
      data := data[ids[k] := DefaultEntry(today)];
      var i := FirstIndex(accounts, AccountWithId(ids[k]));
      if i >= 0 {
        found := found + [accounts[i]];
      }
    }
    assert ids[..|ids|] == ids;
  }

  /** The wizard's state. */
  class BatchInputPage {
    var accounts: seq<Account>
    var selectedAccounts: seq<string>
    var selectedAccountsData: seq<Account>
    var inputData: map<string, Entry>
    var currentStep: int

    /** The step stays within 1..3 and every selected account has an entry. */
    predicate Valid()
      reads this
    {
      1 <= currentStep <= 3 && forall id :: id in selectedAccounts ==> id in inputData
    }

    /** `loadAccounts`: every unused account is listed and selected, and given a default entry. */
    constructor(unused: seq<Account>, today: string)
      ensures Valid() && currentStep == 1
      ensures accounts == unused && selectedAccounts == Map(unused, AccountId)
      ensures forall id :: id in inputData <==> id in selectedAccounts
      ensures forall id :: id in inputData ==> inputData[id] == DefaultEntry(today)
    {
      accounts := unused;
      selectedAccounts := Map(unused, AccountId);
      currentStep := 1;
      selectedAccountsData := [];
      inputData := map[];
      new;
      InitInputData(selectedAccounts, today);
    }

    /** `initInputData`: one default entry per given id, replacing whatever was entered before. */
    method InitInputData(ids: seq<string>, today: string)
      modifies this
      ensures forall id :: id in inputData <==> id in ids
      ensures forall id :: id in inputData ==> inputData[id] == DefaultEntry(today)
      ensures selectedAccountsData == FoundAccounts(accounts, ids)
      ensures accounts == old(accounts) && selectedAccounts == old(selectedAccounts) && currentStep == old(currentStep)
    {
      inputData, selectedAccountsData := DefaultEntries(accounts, ids, today);
    }

    /** `toggleAccount`: flips the one id, then re-initialises every entry. */
    method ToggleAccount(accountId: string, today: string)
      requires Valid()
      modifies this
      ensures Valid()
      ensures selectedAccounts == Toggle(old(selectedAccounts), accountId)
      ensures forall id :: id != accountId ==> (id in selectedAccounts <==> id in old(selectedAccounts))
      ensures forall id :: id in inputData <==> id in selectedAccounts
      ensures forall id :: id in inputData ==> inputData[id] == DefaultEntry(today)
      ensures currentStep == old(currentStep) && accounts == old(accounts)
    {
      selectedAccounts := Toggle(selectedAccounts, accountId);
      InitInputData(selectedAccounts, today);
    }

    /** `toggleSelectAll`: clears the selection when its length is the account count, else selects every account. */
    method ToggleSelectAll(today: string)
      requires Valid()
      modifies this
      ensures Valid()
      ensures |old(selectedAccounts)| == |accounts| ==> selectedAccounts == []
      ensures |old(selectedAccounts)| != |accounts| ==> selectedAccounts == Map(accounts, AccountId)
      ensures forall id :: id in inputData <==> id in selectedAccounts
      ensures forall id :: id in inputData ==> inputData[id] == DefaultEntry(today)
      ensures currentStep == old(currentStep) && accounts == old(accounts)
    {
      if |selectedAccounts| == |accounts| {
        selectedAccounts := [];
      } else {
        selectedAccounts := Map(accounts, AccountId);
      }
      InitInputData(selectedAccounts, today);
    }

    /** `validateInputData`: every selected account's hands pass the check; stops at the first that does not. */
    method ValidateInputData() returns (ok: bool)
      requires Valid()
      ensures ok <==> forall k :: 0 <= k < |selectedAccounts| ==> HandsAccepted(inputData[selectedAccounts[k]].subscriptionHands)
    {
      for k := 0 to |selectedAccounts|
        invariant forall j :: 0 <= j < k ==> HandsAccepted(inputData[selectedAccounts[j]].subscriptionHands)
      {
        assert selectedAccounts[k] in selectedAccounts;
        if !HandsAccepted(inputData[selectedAccounts[k]].subscriptionHands) {
          return false;
        }
      }
      return true;
    }

    /** `nextStep`: 1 to 2 needs a selection, 2 to 3 needs valid entries; step 3 stays. */
    method NextStep()
      requires Valid()
      modifies this
      ensures Valid()
      ensures old(currentStep) == 1 ==> currentStep == (if |selectedAccounts| > 0 then 2 else 1)
      ensures old(currentStep) == 2 ==>
        currentStep == (if forall k :: 0 <= k < |selectedAccounts| ==> HandsAccepted(inputData[selectedAccounts[k]].subscriptionHands) then 3 else 2)
      ensures old(currentStep) == 3 ==> currentStep == 3
      ensures selectedAccounts == old(selectedAccounts) && inputData == old(inputData) && accounts == old(accounts)
    {
      if currentStep == 1 {
        if |selectedAccounts| > 0 {
          currentStep := 2;
        }
      } else if currentStep == 2 {
        var ok := ValidateInputData();
        if ok {
          currentStep := 3;
        }
      }
    }

    /** `prevStep`: back one step, never below 1. */
    method PrevStep()
      requires Valid()
      modifies this
      ensures Valid()
      ensures currentStep == if old(currentStep) > 1 then old(currentStep) - 1 else old(currentStep)
      ensures selectedAccounts == old(selectedAccounts) && inputData == old(inputData) && accounts == old(accounts)
    {
      if currentStep > 1 {
        currentStep := currentStep - 1;
      }
    }

    /** `applyToAll`: copies one account's field to every selected account, leaving the other fields and accounts alone. */
    method ApplyToAll(f: Field, sourceId: string)
      requires Valid()
      requires sourceId in inputData
      modifies this
      ensures Valid()
      ensures inputData.Keys == old(inputData).Keys
      ensures forall id :: id in inputData && id in selectedAccounts ==>
        inputData[id] == WithField(old(inputData)[id], f, FieldOf(old(inputData)[sourceId], f))
      ensures forall id :: id in inputData && id !in selectedAccounts ==> inputData[id] == old(inputData)[id]
      ensures selectedAccounts == old(selectedAccounts) && currentStep == old(currentStep) && accounts == old(accounts)
    {
      var value := FieldOf(inputData[sourceId], f);
      var selected := selectedAccounts;
      var data := inputData;
      for k := 0 to |selected|
        invariant data.Keys == inputData.Keys
        invariant forall id :: id in data && id in selected[..k] ==> data[id] == WithField(inputData[id], f, value)
        invariant forall id :: id in data && id !in selected[..k] ==> data[id] == inputData[id]
      {
        assert selected[..k + 1] == selected[..k] + [selected[k]];
        var id := selected[k];
        assert id in selected;
        if id !in selected[..k] {
          data := data[id := WithField(data[id], f, value)];
        }
      }
      assert selected[..|selected|] == selected;
      inputData := data;
    }

    /**
     * `processBatchInput`: one stock per selected account is appended, a
     * `'subscription'` transaction is posted for each account whose date
     * parses, and the template records every selected account as used
     * (an unknown template id still leaves the template list cleaned).
     * Because the ledger does not know the type, every posted account's
     * recomputed funds are what they were before the batch.
     */
    method ProcessBatchInput(t: Template, store: StockStore, ledger: FundManager, templates: TemplateManager,
                             stockIds: seq<string>, txIds: seq<string>, parseTime: string -> Option<int>,
                             now: int, nowText: string) returns (successCount: int, failCount: int)
      requires Valid()
      requires |stockIds| == |selectedAccounts| && |txIds| == |selectedAccounts|
      modifies store, ledger, templates
      ensures store.stocks == old(store.stocks) + BatchStocks(t, selectedAccounts, inputData, stockIds, parseTime, now)
      ensures ledger.transactions == old(ledger.transactions) +
        BatchPostings(BatchStocks(t, selectedAccounts, inputData, stockIds, parseTime, now), selectedAccounts, inputData, txIds, parseTime, now, nowText)
      ensures ledger.fundRecords == old(ledger.fundRecords)
      ensures ledger.accountFunds == Refreshed(old(ledger.accountFunds), PostedAccounts(selectedAccounts, inputData, parseTime),
                                               ledger.fundRecords, old(ledger.transactions), now)
      ensures successCount == Parsed(selectedAccounts, inputData, parseTime) && successCount + failCount == |selectedAccounts|
      ensures var cleaned := AutoClean(old(templates.stored), now);
        var i := FirstIndex(cleaned, TemplateWithId(t.id));
        templates.stored ==
          if i == -1 then cleaned
          else cleaned[i := Templates.Merged(cleaned[i], UsedPatch(WithAccounts(cleaned[i].usedAccounts, selectedAccounts)), now)]
    {
      successCount, failCount := EnterAll(t, selectedAccounts, inputData, stockIds, txIds, parseTime, store, ledger, now, nowText);
      var _ := templates.BatchMarkTemplateUsed(t.id, selectedAccounts, now);
    }
  }

  /**
   * The funds cache after part of the batch: the entries of the `posted`
   * accounts are replaced by their funds recomputed over `transactions`;
   * every other entry is as it was in `before`.
   */
  function Refreshed(before: map<string, AccountFunds>, posted: set<string>,
                     records: seq<FundRecord>, transactions: seq<BusinessTransaction>, now: int): map<string, AccountFunds> {
    Override(before, posted, k => Recomputed(records, transactions, k, now))
  }

  /** `before` with the entries of the keys in `posted` replaced by their values under `f`. */
  function Override<V>(before: map<string, V>, posted: set<string>, f: string -> V): (r: map<string, V>)
    ensures r.Keys == before.Keys + posted
    ensures forall a :: a in posted ==> r[a] == f(a)
    ensures forall a :: a in before && a !in posted ==> r[a] == before[a]
  {
    before + map k | k in posted :: f(k)
  }

  /** Overriding a map by a function on a set of keys, then on one key more, is overriding on the larger set. */
  lemma OverrideStep<V>(before: map<string, V>, posted: set<string>, f: string -> V, a: string)
    ensures Override(before, posted, f)[a := f(a)] == Override(before, posted + {a}, f)
  {
    var m := Override(before, posted, f);
    var l := m[a := f(a)];
    var r := Override(before, posted + {a}, f);
    assert l.Keys == r.Keys;
    forall k | k in l
      ensures l[k] == r[k]
    {
      if k != a {
        assert l[k] == m[k];
      }
    }
  }

  /** Refreshing one more account. */
  lemma RefreshedStep(before: map<string, AccountFunds>, posted: set<string>,
                      records: seq<FundRecord>, transactions: seq<BusinessTransaction>, a: string, now: int)
    ensures Refreshed(before, posted, records, transactions, now)[a := Recomputed(records, transactions, a, now)] ==
            Refreshed(before, posted + {a}, records, transactions, now)
  {
    OverrideStep(before, posted, k => Recomputed(records, transactions, k, now), a);
  }

  /**
   * The batch over the first `k + 1` accounts is the batch over the first
   * `k` plus the `k`th account's stock, posting and count.
   */
  lemma BatchPrefixStep(t: Template, ids: seq<string>, data: map<string, Entry>, stockIds: seq<string>, txIds: seq<string>,
                        parseTime: string -> Option<int>, now: int, nowText: string, k: nat)
    requires forall id :: id in ids ==> id in data
    requires |stockIds| == |ids| && |txIds| == |ids|
    requires k < |ids|
    ensures var s := BatchStock(t, ids[k], data[ids[k]], stockIds[k], parseTime(TimeText(data[ids[k]])), now);
      BatchStocks(t, ids[..k + 1], data, stockIds[..k + 1], parseTime, now) ==
        BatchStocks(t, ids[..k], data, stockIds[..k], parseTime, now) + [s] &&
      BatchPostings(BatchStocks(t, ids[..k + 1], data, stockIds[..k + 1], parseTime, now), ids[..k + 1], data, txIds[..k + 1], parseTime, now, nowText) ==
        BatchPostings(BatchStocks(t, ids[..k], data, stockIds[..k], parseTime, now), ids[..k], data, txIds[..k], parseTime, now, nowText) +
        (if parseTime(TimeText(data[ids[k]])).Some? then
           [NewTransaction(Posting(s, ids[k], nowText, TimeText(data[ids[k]])), txIds[k], now, Some(now))] else [])
    ensures PostedAccounts(ids[..k + 1], data, parseTime) ==
      PostedAccounts(ids[..k], data, parseTime) + (if parseTime(TimeText(data[ids[k]])).Some? then {ids[k]} else {})
    ensures Parsed(ids[..k + 1], data, parseTime) == Parsed(ids[..k], data, parseTime) + (if parseTime(TimeText(data[ids[k]])).Some? then 1 else 0)
  {
    assert ids[..k + 1][..k] == ids[..k];
    assert stockIds[..k + 1][..k] == stockIds[..k];
    assert txIds[..k + 1][..k] == txIds[..k];
    var made := BatchStocks(t, ids[..k], data, stockIds[..k], parseTime, now);
    var s := BatchStock(t, ids[k], data[ids[k]], stockIds[k], parseTime(TimeText(data[ids[k]])), now);
    assert (made + [s])[..k] == made;
  }

  /**
   * After the first `k` accounts of the batch: the stocks, the transactions
   * and the funds cache are what they were before it plus the batch over
   * those accounts.
   */
  ghost predicate EnteredUpTo(t: Template, ids: seq<string>, data: map<string, Entry>, stockIds: seq<string>, txIds: seq<string>,
                              parseTime: string -> Option<int>, now: int, nowText: string, k: nat,
                              stocks0: seq<Stock>, txs0: seq<BusinessTransaction>, funds0: map<string, AccountFunds>,
                              stocks: seq<Stock>, txs: seq<BusinessTransaction>, funds: map<string, AccountFunds>,
                              records: seq<FundRecord>)
  {
    k <= |ids| && |stockIds| == |ids| && |txIds| == |ids| && (forall id :: id in ids ==> id in data) &&
    stocks == stocks0 + BatchStocks(t, ids[..k], data, stockIds[..k], parseTime, now) &&
    txs == txs0 + BatchPostings(BatchStocks(t, ids[..k], data, stockIds[..k], parseTime, now), ids[..k], data, txIds[..k], parseTime, now, nowText) &&
    funds == Refreshed(funds0, PostedAccounts(ids[..k], data, parseTime), records, txs0, now)
  }

  /** The loop of `processBatchInput` over the selected accounts. */
  method EnterAll(t: Template, ids: seq<string>, data: map<string, Entry>, stockIds: seq<string>, txIds: seq<string>,
                  parseTime: string -> Option<int>, store: StockStore, ledger: FundManager, now: int, nowText: string)
    returns (successCount: int, failCount: int)
    requires forall id :: id in ids ==> id in data
    requires |stockIds| == |ids| && |txIds| == |ids|
    modifies store, ledger
    ensures store.stocks == old(store.stocks) + BatchStocks(t, ids, data, stockIds, parseTime, now)
    ensures ledger.transactions == old(ledger.transactions) +
      BatchPostings(BatchStocks(t, ids, data, stockIds, parseTime, now), ids, data, txIds, parseTime, now, nowText)
    ensures ledger.fundRecords == old(ledger.fundRecords)
    ensures ledger.accountFunds == Refreshed(old(ledger.accountFunds), PostedAccounts(ids, data, parseTime),
                                             ledger.fundRecords, old(ledger.transactions), now)
    ensures successCount == Parsed(ids, data, parseTime) && successCount + failCount == |ids|
  {
    ghost var stocks0 := store.stocks;
    ghost var txs0 := ledger.transactions;
    ghost var funds0 := ledger.accountFunds;
    successCount, failCount := 0, 0;
    EnteredNone(t, ids, data, stockIds, txIds, parseTime, now, nowText, stocks0, txs0, funds0, ledger.fundRecords);
    for k := 0 to |ids|
      invariant successCount == Parsed(ids[..k], data, parseTime) && successCount + failCount == k
      invariant ledger.fundRecords == old(ledger.fundRecords)
      invariant EnteredUpTo(t, ids, data, stockIds, txIds, parseTime, now, nowText, k, stocks0, txs0, funds0,
                            store.stocks, ledger.transactions, ledger.accountFunds, ledger.fundRecords)
    {
      var posted := EnterNext(t, ids, data, stockIds, txIds, parseTime, store, ledger, now, nowText, k, stocks0, txs0, funds0);
      if posted {
        successCount := successCount + 1;
      } else {
        failCount := failCount + 1;
      }
    }
    assert ids[..|ids|] == ids;
    EnteredAll(t, ids, data, stockIds, txIds, parseTime, now, nowText, stocks0, txs0, funds0,
               store.stocks, ledger.transactions, ledger.accountFunds, ledger.fundRecords);
  }

  /** Before the loop nothing has been entered. */
  lemma EnteredNone(t: Template, ids: seq<string>, data: map<string, Entry>, stockIds: seq<string>, txIds: seq<string>,
                    parseTime: string -> Option<int>, now: int, nowText: string,
                    stocks0: seq<Stock>, txs0: seq<BusinessTransaction>, funds0: map<string, AccountFunds>, records: seq<FundRecord>)
    requires forall id :: id in ids ==> id in data
    requires |stockIds| == |ids| && |txIds| == |ids|
    ensures EnteredUpTo(t, ids, data, stockIds, txIds, parseTime, now, nowText, 0, stocks0, txs0, funds0,
                        stocks0, txs0, funds0, records)
  {
    assert stocks0 + [] == stocks0 && txs0 + [] == txs0;
    assert Refreshed(funds0, {}, records, txs0, now) == funds0;
  }

  /** After the loop every account has been entered. */
  lemma EnteredAll(t: Template, ids: seq<string>, data: map<string, Entry>, stockIds: seq<string>, txIds: seq<string>,
                   parseTime: string -> Option<int>, now: int, nowText: string,
                   stocks0: seq<Stock>, txs0: seq<BusinessTransaction>, funds0: map<string, AccountFunds>,
                   stocks: seq<Stock>, txs: seq<BusinessTransaction>, funds: map<string, AccountFunds>, records: seq<FundRecord>)
    requires EnteredUpTo(t, ids, data, stockIds, txIds, parseTime, now, nowText, |ids|, stocks0, txs0, funds0,
                         stocks, txs, funds, records)
    ensures stocks == stocks0 + BatchStocks(t, ids, data, stockIds, parseTime, now)
    ensures txs == txs0 + BatchPostings(BatchStocks(t, ids, data, stockIds, parseTime, now), ids, data, txIds, parseTime, now, nowText)
    ensures funds == Refreshed(funds0, PostedAccounts(ids, data, parseTime), records, txs0, now)
  {
    assert ids[..|ids|] == ids;
    assert stockIds[..|ids|] == stockIds;
    assert txIds[..|ids|] == txIds;
  }

  /** One pass of the loop: the batch so far, over the first `k` accounts, grows by the `k`th. */
  method EnterNext(t: Template, ids: seq<string>, data: map<string, Entry>, stockIds: seq<string>, txIds: seq<string>,
                   parseTime: string -> Option<int>, store: StockStore, ledger: FundManager, now: int, nowText: string, k: nat,
                   ghost stocks0: seq<Stock>, ghost txs0: seq<BusinessTransaction>, ghost funds0: map<string, AccountFunds>)
    returns (posted: bool)
    requires k < |ids|
    requires EnteredUpTo(t, ids, data, stockIds, txIds, parseTime, now, nowText, k, stocks0, txs0, funds0,
                         store.stocks, ledger.transactions, ledger.accountFunds, ledger.fundRecords)
    modifies store, ledger
    ensures Parsed(ids[..k + 1], data, parseTime) == Parsed(ids[..k], data, parseTime) + (if posted then 1 else 0)
    ensures ledger.fundRecords == old(ledger.fundRecords)
    ensures EnteredUpTo(t, ids, data, stockIds, txIds, parseTime, now, nowText, k + 1, stocks0, txs0, funds0,
                        store.stocks, ledger.transactions, ledger.accountFunds, ledger.fundRecords)
  {
    var id := ids[k];
    assert id in ids;
    ghost var made := BatchStocks(t, ids[..k], data, stockIds[..k], parseTime, now);
    BatchPrefixStep(t, ids, data, stockIds, txIds, parseTime, now, nowText, k);
    BatchPostingsKinds(made, ids[..k], data, txIds[..k], parseTime, now, nowText);
    posted := EnterAccount(t, id, data[id], stockIds[k], txIds[k], parseTime, store, ledger, now, nowText,
                           stocks0, made, txs0, BatchPostings(made, ids[..k], data, txIds[..k], parseTime, now, nowText),
                           funds0, PostedAccounts(ids[..k], data, parseTime));
    if posted {
      assert PostedAccounts(ids[..k + 1], data, parseTime) == PostedAccounts(ids[..k], data, parseTime) + {id};
    } else {
      assert PostedAccounts(ids[..k + 1], data, parseTime) == PostedAccounts(ids[..k], data, parseTime);
    }
  }

  /**
   * One account of the batch: its stock is appended, and its transaction
   * posted when the date parses. Stated as one step of the batch: the
   * stocks and transactions made so far gain this account's, and the
   * account's funds are recomputed to what they were before the batch.
   */
  method EnterAccount(t: Template, accountId: string, e: Entry, stockId: string, txId: string,
                      parseTime: string -> Option<int>, store: StockStore, ledger: FundManager, now: int, nowText: string,
                      ghost stocks0: seq<Stock>, ghost made: seq<Stock>, ghost txs0: seq<BusinessTransaction>,
                      ghost postings: seq<BusinessTransaction>, ghost funds0: map<string, AccountFunds>, ghost done: set<string>)
    returns (posted: bool)
    requires store.stocks == stocks0 + made
    requires ledger.transactions == txs0 + postings
    requires forall j :: 0 <= j < |postings| ==> postings[j].kind == SubscriptionKind
    requires ledger.accountFunds == Refreshed(funds0, done, ledger.fundRecords, txs0, now)
    modifies store, ledger
    ensures posted == parseTime(TimeText(e)).Some?
    ensures store.stocks == stocks0 + (made + [BatchStock(t, accountId, e, stockId, parseTime(TimeText(e)), now)])
    ensures ledger.fundRecords == old(ledger.fundRecords)
    ensures posted ==>
      ledger.transactions == txs0 + (postings +
        [NewTransaction(Posting(BatchStock(t, accountId, e, stockId, parseTime(TimeText(e)), now), accountId, nowText, TimeText(e)), txId, now, Some(now))]) &&
      ledger.accountFunds == Refreshed(funds0, done + {accountId}, ledger.fundRecords, txs0, now)
    ensures !posted ==> ledger.transactions == old(ledger.transactions) && ledger.accountFunds == old(ledger.accountFunds)
  {
    var time := parseTime(TimeText(e));
    var s := BatchStock(t, accountId, e, stockId, time, now);
    store.stocks := store.stocks + [s];
    assert store.stocks == stocks0 + (made + [s]);
    posted := time.Some?;
    if posted {
      ghost var funds := ledger.accountFunds;
      var tx := ledger.AddBusinessTransaction(Posting(s, accountId, nowText, TimeText(e)), txId, now, Some(now));
      assert ledger.transactions == txs0 + (postings + [tx]);
      assert forall j :: 0 <= j < |postings + [tx]| ==> (postings + [tx])[j].kind == SubscriptionKind by {
        forall j | 0 <= j < |postings + [tx]|
          ensures (postings + [tx])[j].kind == SubscriptionKind
        {
          if j < |postings| {
            assert (postings + [tx])[j] == postings[j];
          }
        }
      }
      SubscriptionsIgnored(ledger.fundRecords, txs0, postings + [tx], accountId, now);
      RefreshedStep(funds0, done, ledger.fundRecords, txs0, accountId, now);
    }
  }
}
