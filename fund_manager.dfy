/**
 * The cash ledger of utils/fundManager.js. Each account's cash position is
 * rebuilt from scratch, whenever one of its entries changes, by folding a
 * sign table over the account's cash records (deposits and withdrawals)
 * and its business transactions (subscriptions, allotments, fees, sales
 * and their refunds). Only Hong Kong dollars are tracked; amounts are
 * whole cents.
 */
module Ledger {
  import opened Common
  import opened Seqs
  import opened Records

  /** The one currency the fold maintains. */
  const HKD := "HKD"

  /** The error thrown when no record carries the requested id. */
  const RecordNotFound := "记录不存在"

  /** A cash record (a deposit or a withdrawal); `timestamp` is `new Date(datetime).getTime()`, `None` when that is NaN. */
  datatype FundRecord = FundRecord(
    id: string, kind: string, accountId: string, amount: int, currency: string,
    datetime: string, description: string, status: string,
    createTime: int, timestamp: Option<int>, updateTime: Option<int>)

  /** The fields a caller passes to `addFundRecord`. */
  datatype FundInput = FundInput(
    kind: string, accountId: string, amount: int, currency: string,
    datetime: string, description: string, status: string)

  /** The fields a caller passes to `updateFundRecord`; `None` leaves a field as it was. */
  datatype FundPatch = FundPatch(
    kind: Option<string>, accountId: Option<string>, amount: Option<int>, currency: Option<string>,
    datetime: Option<string>, description: Option<string>, status: Option<string>)

  /** The fields a caller passes to `addBusinessTransaction`; a missing or NaN number is `None`. */
  datatype BusinessInput = BusinessInput(
    accountId: string, kind: string, stockId: string, stockName: string,
    amount: Option<int>, fees: Option<int>, profitLoss: Option<int>,
    description: string, datetime: string, businessDate: Option<string>)

  /** A stored business transaction. */
  datatype BusinessTransaction = BusinessTransaction(
    id: string, accountId: string, kind: string, stockId: string, stockName: string,
    amount: Option<int>, fees: Option<int>, profitLoss: Option<int>,
    description: string, datetime: string, businessDate: Option<string>,
    createTime: int, timestamp: Option<int>)

  /**
   * The cached cash position of an account. A per-currency object is a map;
   * a currency missing from it is a value that is not a number. Only
   * `frozenAmount` can be missing altogether (data written before it existed).
   */
  datatype AccountFunds = AccountFunds(
    accountId: string,
    balances: map<string, int>,
    totalDeposit: map<string, int>,
    totalWithdraw: map<string, int>,
    frozenAmount: Option<map<string, int>>,
    lastUpdateTime: int)

  /** The effect of a cash record on the balance: only completed deposits and withdrawals count. */
  function CashEffect(r: FundRecord): int {
    if r.status != "completed" then 0
    else if r.kind == "deposit" then r.amount
    else if r.kind == "withdraw" then -r.amount
    else 0
  }

  /** What a cash record adds to the total deposited. */
  function DepositOf(r: FundRecord): int {
    if r.status == "completed" && r.kind == "deposit" then r.amount else 0
  }

  /** What a cash record adds to the total withdrawn. */
  function WithdrawalOf(r: FundRecord): int {
    if r.status == "completed" && r.kind == "withdraw" then r.amount else 0
  }

  /** The business transaction types the fold recognises. */
  const BusinessKinds: set<string> :=
    {"subscribe", "allot", "allot_refund", "fee_deduction", "fee_refund", "sell", "sell_refund"}

  /** The sign table: the effect of one business transaction on the balance (`amount || 0`, `fees || 0`). */
  function BusinessEffect(t: BusinessTransaction): int {
    var amount := Or0(t.amount);
    var fees := Or0(t.fees);
    if t.kind == "subscribe" then -amount - fees
    else if t.kind == "allot" then -amount
    else if t.kind == "allot_refund" then amount
    else if t.kind == "fee_deduction" then -amount
    else if t.kind == "fee_refund" then amount
    else if t.kind == "sell" then amount
    else if t.kind == "sell_refund" then -amount
    else 0
  }

  function RecordOfAccount(accountId: string): FundRecord -> bool {
    (r: FundRecord) => r.accountId == accountId
  }

  function TransactionOfAccount(accountId: string): BusinessTransaction -> bool {
    (t: BusinessTransaction) => t.accountId == accountId
  }

  function RecordWithId(id: string): FundRecord -> bool {
    (r: FundRecord) => r.id == id
  }

  /** `getAccountFundRecords`: the cash records of one account, in stored order. */
  function RecordsOf(records: seq<FundRecord>, accountId: string): seq<FundRecord> {
    Filter(records, RecordOfAccount(accountId))
  }

  /** `getAccountBusinessTransactions`: the business transactions of one account, in stored order. */
  function TransactionsOf(transactions: seq<BusinessTransaction>, accountId: string): seq<BusinessTransaction> {
    Filter(transactions, TransactionOfAccount(accountId))
  }

  /** A per-currency object holding only Hong Kong dollars. */
  function InHKD(amount: int): map<string, int> {
    map[HKD := amount]
  }

  /** The funds of an account with no cached entry: everything zero. */
  function ZeroFunds(accountId: string, now: int): AccountFunds {
    AccountFunds(accountId, InHKD(0), InHKD(0), InHKD(0), Some(InHKD(0)), now)
  }

  /** The funds `updateAccountFunds` computes for an account from the stored lists. */
  function Recomputed(records: seq<FundRecord>, transactions: seq<BusinessTransaction>, accountId: string, now: int): AccountFunds {
    var mine := RecordsOf(records, accountId);
    var business := TransactionsOf(transactions, accountId);
    AccountFunds(
      accountId,
      InHKD(SumOf(mine, CashEffect) + SumOf(business, BusinessEffect)),
      InHKD(SumOf(mine, DepositOf)),
      InHKD(SumOf(mine, WithdrawalOf)),
      Some(InHKD(0)),
      now)
  }

  /** `getAccountFunds`: the cached entry, or all-zero funds when the account has none. */
  function FundsOrDefault(funds: map<string, AccountFunds>, accountId: string, now: int): (f: AccountFunds)
    ensures accountId in funds ==> f == funds[accountId]
    ensures accountId !in funds ==>
      f.balances == InHKD(0) && f.totalDeposit == InHKD(0) && f.totalWithdraw == InHKD(0) &&
      f.frozenAmount == Some(InHKD(0)) && f.accountId == accountId
  {
    if accountId in funds then funds[accountId] else ZeroFunds(accountId, now)
  }

  /**
   * `migrateFundsData`: every cached entry without a frozen amount gets
   * `frozenAmount = { HKD: 0 }`; nothing else changes.
   */
  function Migrated(funds: map<string, AccountFunds>): (m: map<string, AccountFunds>)
    ensures m.Keys == funds.Keys
    ensures forall k :: k in m ==> m[k].frozenAmount.Some?
    ensures forall k :: k in m ==> m[k].(frozenAmount := funds[k].frozenAmount) == funds[k]
    ensures forall k :: k in m && funds[k].frozenAmount.Some? ==> m[k] == funds[k]
  {
    map k | k in funds :: if funds[k].frozenAmount.None? then funds[k].(frozenAmount := Some(InHKD(0))) else funds[k]
  }

  /** Migrating twice is migrating once. */
  lemma MigratedIdempotent(funds: map<string, AccountFunds>)
    ensures Migrated(Migrated(funds)) == Migrated(funds)
  {
  }

  /**
   * The recomputed balance is the completed deposits, less the completed
   * withdrawals, plus the business effect, and the frozen amount is zero.
   */
  lemma {:induction false} RecomputedBalance(records: seq<FundRecord>, transactions: seq<BusinessTransaction>, accountId: string, now: int)
    ensures var f := Recomputed(records, transactions, accountId, now);
      f.balances[HKD] == f.totalDeposit[HKD] - f.totalWithdraw[HKD] + SumOf(TransactionsOf(transactions, accountId), BusinessEffect) &&
      f.frozenAmount == Some(InHKD(0))
  {
    SumDifference(RecordsOf(records, accountId), CashEffect, DepositOf, WithdrawalOf);
  }

  /** A record that is not completed changes nothing, wherever it is added. */
  lemma IncompleteRecordIgnored(records: seq<FundRecord>, r: FundRecord, more: seq<FundRecord>,
                                 transactions: seq<BusinessTransaction>, accountId: string, now: int)
    requires r.status != "completed"
    ensures Recomputed(records + [r] + more, transactions, accountId, now) == Recomputed(records + more, transactions, accountId, now)
  {
    var p := RecordOfAccount(accountId);
    var with, without := Filter(records + [r] + more, p), Filter(records + more, p);
    assert CashEffect(r) == 0 && DepositOf(r) == 0 && WithdrawalOf(r) == 0;
    FilteredSumSkip(records, r, more, p, CashEffect);
    FilteredSumSkip(records, r, more, p, DepositOf);
    FilteredSumSkip(records, r, more, p, WithdrawalOf);
    assert SumOf(with, CashEffect) == SumOf(without, CashEffect);
    assert SumOf(with, DepositOf) == SumOf(without, DepositOf);
    assert SumOf(with, WithdrawalOf) == SumOf(without, WithdrawalOf);
  }

  /** Reordering the cash records does not change the three cash sums of an account. */
  lemma CashSumsOrderIndependent(records: seq<FundRecord>, records': seq<FundRecord>, accountId: string)
    requires multiset(records) == multiset(records')
    ensures SumOf(RecordsOf(records, accountId), CashEffect) == SumOf(RecordsOf(records', accountId), CashEffect)
    ensures SumOf(RecordsOf(records, accountId), DepositOf) == SumOf(RecordsOf(records', accountId), DepositOf)
    ensures SumOf(RecordsOf(records, accountId), WithdrawalOf) == SumOf(RecordsOf(records', accountId), WithdrawalOf)
  {
    var a, b := RecordsOf(records, accountId), RecordsOf(records', accountId);
    FilterPermutation(records, records', RecordOfAccount(accountId));
    SumPermutation(a, b, CashEffect);
    SumPermutation(a, b, DepositOf);
    SumPermutation(a, b, WithdrawalOf);
  }

  /** Reordering the business transactions does not change an account's business effect. */
  lemma BusinessSumOrderIndependent(transactions: seq<BusinessTransaction>, transactions': seq<BusinessTransaction>, accountId: string)
    requires multiset(transactions) == multiset(transactions')
    ensures SumOf(TransactionsOf(transactions, accountId), BusinessEffect) == SumOf(TransactionsOf(transactions', accountId), BusinessEffect)
  {
    FilterPermutation(transactions, transactions', TransactionOfAccount(accountId));
    SumPermutation(TransactionsOf(transactions, accountId), TransactionsOf(transactions', accountId), BusinessEffect);
  }

  /** The fold is commutative: reordering either stored list changes nothing. */
  lemma RecomputeOrderIndependent(
    records: seq<FundRecord>, records': seq<FundRecord>,
    transactions: seq<BusinessTransaction>, transactions': seq<BusinessTransaction>,
    accountId: string, now: int)
    requires multiset(records) == multiset(records')
    requires multiset(transactions) == multiset(transactions')
    ensures Recomputed(records, transactions, accountId, now) == Recomputed(records', transactions', accountId, now)
  {
    CashSumsOrderIndependent(records, records', accountId);
    BusinessSumOrderIndependent(transactions, transactions', accountId);
    RecomputedBySums(records, records', transactions, transactions', accountId, now);
  }

  /** The recomputed funds depend on the lists only through the account's four sums. */
  lemma RecomputedBySums(
    records: seq<FundRecord>, records': seq<FundRecord>,
    transactions: seq<BusinessTransaction>, transactions': seq<BusinessTransaction>,
    accountId: string, now: int)
    requires SumOf(RecordsOf(records, accountId), CashEffect) == SumOf(RecordsOf(records', accountId), CashEffect)
    requires SumOf(RecordsOf(records, accountId), DepositOf) == SumOf(RecordsOf(records', accountId), DepositOf)
    requires SumOf(RecordsOf(records, accountId), WithdrawalOf) == SumOf(RecordsOf(records', accountId), WithdrawalOf)
    requires SumOf(TransactionsOf(transactions, accountId), BusinessEffect) == SumOf(TransactionsOf(transactions', accountId), BusinessEffect)
    ensures Recomputed(records, transactions, accountId, now) == Recomputed(records', transactions', accountId, now)
  {
  }

  /** An original and its refund: the pairs whose effects cancel. */
  predicate RefundPair(original: BusinessTransaction, refund: BusinessTransaction) {
    original.accountId == refund.accountId &&
    Or0(original.amount) == Or0(refund.amount) &&
    ((original.kind == "allot" && refund.kind == "allot_refund") ||
     (original.kind == "fee_deduction" && refund.kind == "fee_refund") ||
     (original.kind == "sell" && refund.kind == "sell_refund"))
  }

  /** Appending a sequence of transactions that belong to another account, or whose effects sum to zero, keeps the funds. */
  lemma {:induction false} AppendNeutral(records: seq<FundRecord>, transactions: seq<BusinessTransaction>,
                                         extra: seq<BusinessTransaction>, accountId: string, now: int)
    requires SumOf(TransactionsOf(extra, accountId), BusinessEffect) == 0
    ensures Recomputed(records, transactions + extra, accountId, now) == Recomputed(records, transactions, accountId, now)
  {
    var q := TransactionOfAccount(accountId);
    FilterConcat(transactions, extra, q);
    SumConcat(Filter(transactions, q), Filter(extra, q), BusinessEffect);
  }

  /** An allotment, fee deduction or sale followed by its refund nets to zero. */
  lemma RefundCancels(records: seq<FundRecord>, transactions: seq<BusinessTransaction>,
                      original: BusinessTransaction, refund: BusinessTransaction, accountId: string, now: int)
    requires RefundPair(original, refund)
    ensures Recomputed(records, transactions + [original, refund], accountId, now) == Recomputed(records, transactions, accountId, now)
  {
    var q := TransactionOfAccount(accountId);
    var pair := [original, refund];
    assert pair == [original] + [refund];
    FilterConcat([original], [refund], q);
    FilterSingleton(original, q);
    FilterSingleton(refund, q);
    SumConcat([original], [refund], BusinessEffect);
    SumSingleton(original, BusinessEffect);
    SumSingleton(refund, BusinessEffect);
    AppendNeutral(records, transactions, pair, accountId, now);
  }

  /**
   * A transaction of a type outside the sign table, such as the
   * `'subscription'` the batch entry page posts, has no effect on any balance.
   */
  lemma UnknownKindIgnored(records: seq<FundRecord>, transactions: seq<BusinessTransaction>,
                           t: BusinessTransaction, accountId: string, now: int)
    requires t.kind !in BusinessKinds
    ensures Recomputed(records, transactions + [t], accountId, now) == Recomputed(records, transactions, accountId, now)
  {
    FilterSingleton(t, TransactionOfAccount(accountId));
    SumSingleton(t, BusinessEffect);
    AppendNeutral(records, transactions, [t], accountId, now);
  }

  /** What is available to withdraw in a currency: the balance less the frozen amount (0 when not a number). */
  function Available(f: AccountFunds, currency: string): int
    requires currency in f.balances
  {
    var frozen := if f.frozenAmount.Some? && currency in f.frozenAmount.value then f.frozenAmount.value[currency] else 0;
    f.balances[currency] - frozen
  }

  /** Why `validateFundOperation` throws. */
  datatype FundError =
    | EmptyAccountId
    | EmptyCurrency
    | NonPositiveAmount
    | FundsCorrupt
    | Insufficient(available: int)

  /** One row of the cross-account summary. */
  datatype AccountDetail = AccountDetail(account: Account, funds: AccountFunds)

  /** `getAllAccountsFundsSummary`'s result, in Hong Kong dollars. */
  datatype FundsSummary = FundsSummary(totalBalance: int, totalDeposit: int, totalWithdraw: int, details: seq<AccountDetail>)

  /** A per-currency value read with `typeof x.HKD === 'number' ? x.HKD : 0`. */
  function HkdOr0(m: map<string, int>): int {
    if HKD in m then m[HKD] else 0
  }

  function CachedBalance(funds: map<string, AccountFunds>, now: int): Account -> int {
    (a: Account) => HkdOr0(FundsOrDefault(funds, a.id, now).balances)
  }

  function CachedDeposit(funds: map<string, AccountFunds>, now: int): Account -> int {
    (a: Account) => HkdOr0(FundsOrDefault(funds, a.id, now).totalDeposit)
  }

  function CachedWithdraw(funds: map<string, AccountFunds>, now: int): Account -> int {
    (a: Account) => HkdOr0(FundsOrDefault(funds, a.id, now).totalWithdraw)
  }

  /** The first loop of `updateAccountFunds`: the balance, deposits and withdrawals of the cash records. */
  method CashTotals(records: seq<FundRecord>) returns (balance: int, deposit: int, withdraw: int)
    ensures balance == SumOf(records, CashEffect)
    ensures deposit == SumOf(records, DepositOf) && withdraw == SumOf(records, WithdrawalOf)
  {
    balance, deposit, withdraw := 0, 0, 0;
    var i := 0;
    while i < |records|
      invariant 0 <= i <= |records|
      invariant balance == SumOf(records[..i], CashEffect)
      invariant deposit == SumOf(records[..i], DepositOf)
      invariant withdraw == SumOf(records[..i], WithdrawalOf)
    {
      var r := records[i];
      assert records[..i + 1][..i] == records[..i];
      if r.status == "completed" {
        if r.kind == "deposit" {
          deposit := deposit + r.amount;
          balance := balance + r.amount;
        } else if r.kind == "withdraw" {
          withdraw := withdraw + r.amount;
          balance := balance - r.amount;
        }
      }
      i := i + 1;
    }
    assert records[..|records|] == records;
  }

  /** The second loop of `updateAccountFunds`: the sign table applied to each business transaction in turn. */
  method ApplyBusiness(start: int, business: seq<BusinessTransaction>) returns (balance: int)
    ensures balance == start + SumOf(business, BusinessEffect)
  {
    balance := start;
    var j := 0;
    while j < |business|
      invariant 0 <= j <= |business|
      invariant balance == start + SumOf(business[..j], BusinessEffect)
    {
      var t := business[j];
      assert business[..j + 1][..j] == business[..j];
      var amount := Or0(t.amount);
      var fees := Or0(t.fees);
      if t.kind == "subscribe" {
        balance := balance - amount;
        balance := balance - fees;
      } else if t.kind == "allot" {
        balance := balance - amount;
      } else if t.kind == "allot_refund" {
        balance := balance + amount;
      } else if t.kind == "fee_deduction" {
        balance := balance - amount;
      } else if t.kind == "fee_refund" {
        balance := balance + amount;
      } else if t.kind == "sell" {
        balance := balance + amount;
      } else if t.kind == "sell_refund" {
        balance := balance - amount;
      }
      j := j + 1;
    }
    assert business[..|business|] == business;
  }

  /** The fund manager over the three stored collections. */
  class FundManager {
    var fundRecords: seq<FundRecord>
    var transactions: seq<BusinessTransaction>
    var accountFunds: map<string, AccountFunds>

    /** Loads the stores and runs the frozen-amount migration. */
    constructor(records: seq<FundRecord>, stored: seq<BusinessTransaction>, funds: map<string, AccountFunds>)
      ensures fundRecords == records && transactions == stored
      ensures accountFunds == Migrated(funds)
    {
      fundRecords := records;
      transactions := stored;
      accountFunds := Migrated(funds);
    }

    /** `migrateFundsData`. */
    method MigrateFundsData()
      modifies this
      ensures accountFunds == Migrated(old(accountFunds))
      ensures fundRecords == old(fundRecords) && transactions == old(transactions)
    {
      accountFunds := Migrated(accountFunds);
    }

    /** `getAccountFunds`. */
    function GetAccountFunds(accountId: string, now: int): (f: AccountFunds)
      reads this
      ensures accountId in accountFunds ==> f == accountFunds[accountId]
      ensures accountId !in accountFunds ==> f == ZeroFunds(accountId, now)
    {
      FundsOrDefault(accountFunds, accountId, now)
    }

    /**
     * `updateAccountFunds`: folds the account's cash records and business
     * transactions into fresh funds and caches them under the account only.
     */
    method UpdateAccountFunds(accountId: string, now: int) returns (funds: AccountFunds)
      modifies this
      ensures funds == Recomputed(fundRecords, transactions, accountId, now)
      ensures fundRecords == old(fundRecords) && transactions == old(transactions)
      ensures accountFunds == old(accountFunds)[accountId := funds]
    {
      var records := RecordsOf(fundRecords, accountId);
      var balance, deposit, withdraw := CashTotals(records);
      balance := ApplyBusiness(balance, TransactionsOf(transactions, accountId));
      funds := AccountFunds(accountId, InHKD(balance), InHKD(deposit), InHKD(withdraw), Some(InHKD(0)), now);
      accountFunds := accountFunds[accountId := funds];
    }

    /** `addFundRecord`: appends one record and recomputes its account. */
    method AddFundRecord(input: FundInput, id: string, now: int, timestamp: Option<int>) returns (rec: FundRecord)
      modifies this
      ensures rec == FundRecord(id, input.kind, input.accountId, input.amount, input.currency,
                                input.datetime, input.description, input.status, now, timestamp, None)
      ensures fundRecords == old(fundRecords) + [rec]
      ensures transactions == old(transactions)
      ensures accountFunds == old(accountFunds)[input.accountId := Recomputed(fundRecords, transactions, input.accountId, now)]
    {
      rec := FundRecord(id, input.kind, input.accountId, input.amount, input.currency,
                        input.datetime, input.description, input.status, now, timestamp, None);
      fundRecords := fundRecords + [rec];
      var _ := UpdateAccountFunds(input.accountId, now);
    }

    /** `deleteFundRecord`: removes the first record with the id and recomputes its account, or fails. */
    method DeleteFundRecord(recordId: string, now: int) returns (r: Result<bool, string>)
      modifies this
      ensures var i := FirstIndex(old(fundRecords), RecordWithId(recordId));
        if i == -1 then
          r == Err(RecordNotFound) && fundRecords == old(fundRecords) && accountFunds == old(accountFunds)
        else
          r == Ok(true) && fundRecords == RemoveAt(old(fundRecords), i) &&
          accountFunds == old(accountFunds)[old(fundRecords)[i].accountId :=
            Recomputed(fundRecords, transactions, old(fundRecords)[i].accountId, now)]
      ensures transactions == old(transactions)
    {
      var i := FirstIndex(fundRecords, RecordWithId(recordId));
      if i == -1 {
        return Err(RecordNotFound);
      }
      var record := fundRecords[i];
      fundRecords := RemoveAt(fundRecords, i);
      var _ := UpdateAccountFunds(record.accountId, now);
      r := Ok(true);
    }

    /**
     * `updateFundRecord`: merges the patch into the first record with the id,
     * stamps `updateTime`, and recomputes the account the record belongs to
     * after the update; fails when no record has the id.
     */
    method UpdateFundRecord(recordId: string, patch: FundPatch, now: int) returns (r: Result<FundRecord, string>)
      modifies this
      ensures var i := FirstIndex(old(fundRecords), RecordWithId(recordId));
        if i == -1 then
          r == Err(RecordNotFound) && fundRecords == old(fundRecords) && accountFunds == old(accountFunds)
        else
          var merged := Merged(old(fundRecords)[i], patch, now);
          r == Ok(merged) && fundRecords == old(fundRecords)[i := merged] &&
          accountFunds == old(accountFunds)[merged.accountId := Recomputed(fundRecords, transactions, merged.accountId, now)]
      ensures transactions == old(transactions)
    {
      var i := FirstIndex(fundRecords, RecordWithId(recordId));
      if i == -1 {
        return Err(RecordNotFound);
      }
      var merged := Merged(fundRecords[i], patch, now);
      fundRecords := fundRecords[i := merged];
      var _ := UpdateAccountFunds(merged.accountId, now);
      r := Ok(merged);
    }

    /** `addBusinessTransaction`: appends one transaction and recomputes its account. */
    method AddBusinessTransaction(input: BusinessInput, id: string, now: int, timestamp: Option<int>) returns (t: BusinessTransaction)
      modifies this
      ensures t == NewTransaction(input, id, now, timestamp)
      ensures transactions == old(transactions) + [t]
      ensures fundRecords == old(fundRecords)
      ensures accountFunds == old(accountFunds)[input.accountId := Recomputed(fundRecords, transactions, input.accountId, now)]
    {
      t := NewTransaction(input, id, now, timestamp);
      transactions := transactions + [t];
      var _ := UpdateAccountFunds(input.accountId, now);
    }

    /**
     * `getAllAccountsFundsSummary`: one detail row per account in order, and
     * grand totals that add up each account's cached Hong Kong dollar figures
     * (a missing or non-numeric figure counts as 0).
     */
    method GetAllAccountsFundsSummary(accounts: seq<Account>, now: int) returns (s: FundsSummary)
      ensures s.totalBalance == SumOf(accounts, CachedBalance(accountFunds, now))
      ensures s.totalDeposit == SumOf(accounts, CachedDeposit(accountFunds, now))
      ensures s.totalWithdraw == SumOf(accounts, CachedWithdraw(accountFunds, now))
      ensures |s.details| == |accounts|
      ensures forall i :: 0 <= i < |accounts| ==>
        s.details[i] == AccountDetail(accounts[i], FundsOrDefault(accountFunds, accounts[i].id, now))
    {
      s := FundsSummary(0, 0, 0, []);
      var i := 0;
      while i < |accounts|
        invariant 0 <= i <= |accounts|
        invariant s.totalBalance == SumOf(accounts[..i], CachedBalance(accountFunds, now))
        invariant s.totalDeposit == SumOf(accounts[..i], CachedDeposit(accountFunds, now))
        invariant s.totalWithdraw == SumOf(accounts[..i], CachedWithdraw(accountFunds, now))
        invariant |s.details| == i
        invariant forall k :: 0 <= k < i ==>
          s.details[k] == AccountDetail(accounts[k], FundsOrDefault(accountFunds, accounts[k].id, now))
      {
        var account := accounts[i];
        assert accounts[..i + 1][..i] == accounts[..i];
        var funds := GetAccountFunds(account.id, now);
        s := FundsSummary(
          s.totalBalance + HkdOr0(funds.balances),
          s.totalDeposit + HkdOr0(funds.totalDeposit),
          s.totalWithdraw + HkdOr0(funds.totalWithdraw),
          s.details + [AccountDetail(account, funds)]);
        i := i + 1;
      }
      assert accounts[..|accounts|] == accounts;
    }

    /**
     * `validateFundOperation`: rejects an empty account id or currency and a
     * non-positive amount (a NaN amount, `None`, is not rejected by these
     * comparisons); a withdrawal also needs a numeric balance in the currency
     * and succeeds exactly when the amount does not exceed balance less frozen.
     */
    function ValidateFundOperation(accountId: string, amount: Option<int>, currency: string, kind: string, now: int): (r: Result<bool, FundError>)
      reads this
      ensures accountId == "" ==> r == Err(EmptyAccountId)
      ensures accountId != "" && currency == "" ==> r == Err(EmptyCurrency)
      ensures accountId != "" && currency != "" && amount.Some? && amount.value <= 0 ==> r == Err(NonPositiveAmount)
      ensures r.Ok? <==>
        accountId != "" && currency != "" && !(amount.Some? && amount.value <= 0) &&
        (kind == "withdraw" ==>
          var f := FundsOrDefault(accountFunds, accountId, now);
          currency in f.balances && !(amount.Some? && amount.value > Available(f, currency)))
      ensures r.Ok? ==> r.value
    {
      if accountId == "" then Err(EmptyAccountId)
      else if currency == "" then Err(EmptyCurrency)
      else if amount.Some? && amount.value <= 0 then Err(NonPositiveAmount)
      else if kind == "withdraw" then
        var f := GetAccountFunds(accountId, now);
        if currency !in f.balances then Err(FundsCorrupt)
        else if amount.Some? && amount.value > Available(f, currency) then Err(Insufficient(Available(f, currency)))
        else Ok(true)
      else Ok(true)
    }
  }

  /** `{ id, ...transaction, createTime, timestamp }`. */
  function NewTransaction(input: BusinessInput, id: string, now: int, timestamp: Option<int>): (t: BusinessTransaction)
    ensures t.accountId == input.accountId && t.kind == input.kind && t.amount == input.amount && t.fees == input.fees
  {
    BusinessTransaction(id, input.accountId, input.kind, input.stockId, input.stockName,
                        input.amount, input.fees, input.profitLoss, input.description,
                        input.datetime, input.businessDate, now, timestamp)
  }

  /**
   * `{ ...record, ...updates, updateTime }`: every field the patch carries
   * replaces the stored one; the id, createTime and timestamp are kept.
   */
  function Merged(r: FundRecord, p: FundPatch, now: int): (m: FundRecord)
    ensures m.id == r.id && m.createTime == r.createTime && m.timestamp == r.timestamp
    ensures m.updateTime == Some(now)
    ensures p == FundPatch(None, None, None, None, None, None, None) ==> m == r.(updateTime := Some(now))
  {
    FundRecord(r.id, p.kind.GetOr(r.kind), p.accountId.GetOr(r.accountId), p.amount.GetOr(r.amount),
      p.currency.GetOr(r.currency), p.datetime.GetOr(r.datetime), p.description.GetOr(r.description),
      p.status.GetOr(r.status), r.createTime, r.timestamp, Some(now))
  }
}
