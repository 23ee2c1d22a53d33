# new_stocks — a verified model of the IPO-subscription tracker's core

The system is a WeChat mini program in which a user keeps, per brokerage
account, the Hong Kong IPOs they subscribed to (hands applied for, shares
allotted, allotment fees, the sale and its profit) next to a cash ledger of
deposits, withdrawals and business transactions, with reusable subscription
templates, a batch page that enters one template for many accounts, a history
page, a profile page that manages accounts, and a small compatibility helper.

This project models that core in Dafny, one module per source file:

| module | source |
|---|---|
| `Ledger` | `utils/fundManager.js` — the cash records, business transactions and the per-account funds cache |
| `Templates` | `utils/templateManager.js` — the template store |
| `Compatibility` | `utils/compatibility.js` — version comparison and feature fallbacks |
| `IndexPage` | `pages/index/index.js` |
| `AddStock` | `pages/add-stock/add-stock.js` |
| `WinningResult` | `pages/winning-result/winning-result.js` |
| `SellRecord` | `pages/sell-record/sell-record.js` |
| `History` | `pages/history/history.js` |
| `Profile` | `pages/profile/profile.js` |
| `FundRecordPage` | `pages/fund-record/fund-record.js` |
| `FundDetail` | `pages/fund-detail/fund-detail.js` |
| `StockTemplatePage` | `pages/stock-template/stock-template.js` |
| `BatchInput` | `pages/batch-input/batch-input.js` |

and the shared modules `Common` (Option and Result), `Seqs` (filter, map,
sums, find-index and their laws), `Sorting` (a stable sort by a total
preorder, as `Array.prototype.sort` is), `Money` (cents, rounding as
`Math.round` and `toFixed(2)` do), `JsText` (`parseInt`, `parseFloat`,
`trim`) and `Records` (the stored stock record and the account list).

Conventions. Money is an integer number of cents and prices are cents per
share; a value that is `NaN` or `undefined` in the program is `None` of an
`Option`, and `x || 0` is `Or0(x)`. Every persisted list (stocks, accounts,
fund records, business transactions, templates, the funds cache) is a field
of a store class whose methods reassign it, and each page whose handlers
update its `data` is a class with those fields. The current time and the
generated identifiers are parameters of the operations that use them.

## Model

| member | source | states |
|---|---|---|
| Ledger.FundsOrDefault | utils/fundManager.js:108-118 | `getAccountFunds`: the cached entry when the account has one, otherwise funds with zero Hong Kong dollar balance, deposits, withdrawals and frozen amount |
| Ledger.Migrated | utils/fundManager.js:15-33 | the migration keeps the same accounts, gives every entry a frozen amount, changes nothing but the frozen amount, and leaves entries that had one untouched |
| Ledger.MigratedIdempotent | utils/fundManager.js:15-33 | running the migration twice is the same as running it once |
| Ledger.RecomputedBalance | utils/fundManager.js:121-188 | the recomputed balance equals completed deposits minus completed withdrawals plus the business effect of the account's transactions, with a zero frozen amount |
| Ledger.IncompleteRecordIgnored | utils/fundManager.js:133-143 | a cash record whose status is not 'completed' changes none of the recomputed funds, wherever it sits in the list |
| Ledger.CashSumsOrderIndependent | utils/fundManager.js:133-143 | reordering the stored cash records leaves an account's balance effect, deposit total and withdrawal total unchanged |
| Ledger.BusinessSumOrderIndependent | utils/fundManager.js:146-175 | reordering the stored business transactions leaves an account's business effect unchanged |
| Ledger.RecomputeOrderIndependent | utils/fundManager.js:121-188 | the recomputed funds depend only on the multisets of records and transactions, not on their order |
| Ledger.AppendNeutral | utils/fundManager.js:146-175 | appending transactions whose business effect for the account sums to zero (for example those of other accounts) leaves its funds unchanged |
| Ledger.RefundCancels | utils/fundManager.js:156-174 | an allotment, fee deduction or sale followed by its refund of the same amount nets to zero in the balance |
| Ledger.UnknownKindIgnored | utils/fundManager.js:152-174 | a transaction whose type is outside the sign table (such as 'subscription') has no effect on the funds |
| Ledger.CashTotals | utils/fundManager.js:133-143 | the loop over cash records returns the sums of the balance effect, deposits and withdrawals of the records |
| Ledger.ApplyBusiness | utils/fundManager.js:146-175 | the loop over business transactions adds their summed sign-table effect to the starting balance |
| Ledger.FundManager.constructor | utils/fundManager.js:3-12 | the manager starts with the stored lists and the migrated funds cache |
| Ledger.FundManager.MigrateFundsData | utils/fundManager.js:15-33 | the cache becomes its migration and the two lists are unchanged |
| Ledger.FundManager.GetAccountFunds | utils/fundManager.js:108-118 | the cached entry for the account, or all-zero funds when it has none |
| Ledger.FundManager.UpdateAccountFunds | utils/fundManager.js:121-188 | the returned funds are the recomputation from the stored lists, and only the account's cache entry is replaced |
| Ledger.FundManager.AddFundRecord | utils/fundManager.js:47-63 | appends exactly one record carrying the input, id, creation time and timestamp, and recomputes that record's account only |
| Ledger.FundManager.DeleteFundRecord | utils/fundManager.js:66-82 | fails with '记录不存在' and changes nothing when no record has the id; otherwise removes the first such record and recomputes its account |
| Ledger.FundManager.UpdateFundRecord | utils/fundManager.js:85-105 | fails with '记录不存在' when no record has the id; otherwise replaces the first such record by the merge and recomputes the account the merged record names |
| Ledger.FundManager.AddBusinessTransaction | utils/fundManager.js:197-219 | appends exactly one transaction built from the input and recomputes that transaction's account only |
| Ledger.FundManager.GetAllAccountsFundsSummary | utils/fundManager.js:222-252 | one detail row per account in order, and totals that sum each account's cached Hong Kong dollar balance, deposit and withdrawal, a non-numeric figure counting as 0 |
| Ledger.FundManager.ValidateFundOperation | utils/fundManager.js:288-318 | the error for an empty account id, an empty currency or a non-positive amount, in that order; success exactly when those pass and, for a withdrawal, the balance is numeric and covers the amount less the frozen part |
| Ledger.NewTransaction | utils/fundManager.js:205-210 | a stored transaction keeps the input's account, type, amount and fees |
| Ledger.Merged | utils/fundManager.js:93-97 | a merged record keeps its id, creation time and timestamp, gets the update time, and an empty patch changes nothing else |
| Ledger.BusinessEffect | utils/fundManager.js:147-175 | the definition of the sign table: subscriptions take amount and fees, allotments, fee deductions and sell refunds take the amount, allot refunds, fee refunds and sales add it, other types nothing; RefundCancels and UnknownKindIgnored state its consequences |
| Ledger.Recomputed | utils/fundManager.js:121-188 | the definition of the recomputed funds; RecomputedBalance, RecomputeOrderIndependent and IncompleteRecordIgnored state what they hold |
| SellRecord.SellFeesFor | pages/sell-record/sell-record.js:232-259 | each sell fee is the nearest cent to its rate (0.1% stamp duty, 0.00285% levy, 0.00565% trading fee), the settlement fee is the nearest cent to 0.002% but never below HK$3.00, the commission is HK$75.00, and the total is the sum of the parts |
| SellRecord.SellFeesAtLeast | pages/sell-record/sell-record.js:237-249 | any sale of a non-negative amount costs at least the commission plus the minimum settlement fee (HK$78.00) |
| SellRecord.SellFeesMonotone | pages/sell-record/sell-record.js:234-249 | a larger sale never costs less in total fees |
| SellRecord.BuyFeeBasis | pages/sell-record/sell-record.js:168-176 | the buy-side fee is the saved allotment total when present and non-zero, otherwise service fee plus package fee (each read as 0 when absent) |
| SellRecord.CalculateProfitAsWritten | pages/sell-record/sell-record.js:177-183 | as written, the fee total already holds the prorated buy fees and the profit subtracts them once more |
| SellRecord.CalculateProfit | pages/sell-record/sell-record.js:150-229 | no price or no shares resets the preview; otherwise sale amount, cost amount and sell fees are the products of the inputs; with a winning lot the buy fees are prorated by sold over winning shares, the profit is sale minus cost minus buy and sell fees, each once, and the rate is the profit over the cost in hundredths of a percent, 0 without a cost |
| SellRecord.BuyFeesCountedTwice | pages/sell-record/sell-record.js:177-183 | the code as written agrees with the intended figures except that its profit is lower by the prorated buy fees, so every sale carrying buy fees reports too low a profit |
| SellRecord.BuyFeesCountedTwiceExample | pages/sell-record/sell-record.js:177-183 | selling a 1000-share lot with HK$100.00 of allotment fees at its issue price reports a loss of HK$200.00 plus sell fees instead of HK$100.00 plus sell fees |
| SellRecord.FullSaleChargesWholeBuyFee | pages/sell-record/sell-record.js:166-183 | selling the whole winning lot prorates the buy fee to the whole fee, and the profit subtracts it once |
| SellRecord.PreviewProfit | pages/sell-record/sell-record.js:193 | the profit handed to the save is within half a cent of the preview's profit, 0 after a reset, and not a number when there is no winning lot (see also lines 217, 289) |
| SellRecord.PreviewFees | pages/sell-record/sell-record.js:219-226 | the fee breakdown handed to the save is the reset breakdown after a reset and the computed one otherwise (see also lines 195, 290) |
| SellRecord.SubmitSale | pages/sell-record/sell-record.js:261-292 | refused exactly when the price is not a positive number or the share count exceeds the winning shares, the price error first; on success the sale carries the price, the sale time, exactly that share count, and the profit and fee breakdown of the preview of the same inputs (the preview reads the share field as `parseInt` or 0): within half a cent of sale minus cost minus fees when the field holds a positive count, and profit 0 with reset fees when it does not (see also lines 150-160) |
| SellRecord.Sold | pages/sell-record/sell-record.js:308-315 | the stock after a sale differs from the old one in exactly the five sale fields, which take the sale's values |
| SellRecord.SaveSellRecord | pages/sell-record/sell-record.js:294-342 | the first stock with the id is replaced by its sold form and the result says so; an unknown id changes nothing |
| SellRecord.UpdateStockStatus | pages/sell-record/sell-record.js:356-397 | the first stock with the id gets the new status and nothing else changes; an unknown id changes nothing |
| SellRecord.SharesToSell | pages/sell-record/sell-record.js:264 | the shares sold are the parsed share field when it parses to a non-zero number, otherwise the whole winning lot |
| SellRecord.EmptySharesSaveZeroProfit | pages/sell-record/sell-record.js:150-160 | an empty share field with a valid price sells the whole lot but saves profit 0 and the reset fees, because the preview priced no shares (see also lines 261-292) |
| AddStock.CalculateProfit | pages/add-stock/add-stock.js:135-156 | 0 when nothing is sold at a positive price; otherwise not a number exactly when the cost price is not a number or there are no winning shares, and else within half a cent of sale minus cost minus prorated buy fees minus sell and other fees |
| AddStock.FullSaleProfit | pages/add-stock/add-stock.js:144-153 | selling the whole winning lot gives exactly (sell price − cost price) × shares minus the whole buy fees and the other fees |
| AddStock.BuildStock | pages/add-stock/add-stock.js:106-125 | the built record has the page id or a fresh one, the trimmed name, the parsed numbers, the status or 'ongoing' when it is empty, the carried-over creation time, allotment and sale, no account, issue price or fee details, and profit 0 |
| AddStock.SubmitStock | pages/add-stock/add-stock.js:93-133 | refused exactly when one of the four required fields is empty; otherwise the built record, whose profit is recomputed only with a positive sell price and a winning lot |
| AddStock.EditedStockFallsToDefault | pages/add-stock/add-stock.js:106-125 | a submitted record names no account, so the home page counts it under 'default' (see also pages/index/index.js:96-99) |
| AddStock.SaveStock | pages/add-stock/add-stock.js:162-211 | in edit mode the first stock with the id is replaced and an unknown id changes nothing; a new record is appended |
| WinningResult.FiveDigitCodeIsHK | pages/winning-result/winning-result.js:110-113 | a name holding five consecutive digits anywhere is a Hong Kong stock |
| WinningResult.HKInNameIsHK | pages/winning-result/winning-result.js:110-113 | a name containing 'HK' anywhere is a Hong Kong stock |
| WinningResult.SubscribedShares | pages/winning-result/winning-result.js:156-157 | a Hong Kong stock's subscription covers 100 shares per hand, any other one share per unit (see also line 72) |
| WinningResult.MaxWinningShares | pages/winning-result/winning-result.js:71-72 | the allotment limit is the subscribed share count, never below the number of hands |
| WinningResult.CalculateResult | pages/winning-result/winning-result.js:146-165 | nothing changes for a non-positive allotment; otherwise the amount is shares × cost price and the rate is the percentage of subscribed shares rounded to two decimals, 0 when nothing was subscribed |
| WinningResult.FullAllotmentRate | pages/winning-result/winning-result.js:157-158 | allotting every subscribed share gives a rate of exactly 100.00% |
| WinningResult.SubmitWinning | pages/winning-result/winning-result.js:167-194 | accepted exactly when the share text parses to a positive count within the limit, and then passes that count and the chosen time on |
| WinningResult.Allotted | pages/winning-result/winning-result.js:210-214 | the stock after an allotment differs in exactly the winning shares and time, which take the new values |
| WinningResult.SaveWinningResult | pages/winning-result/winning-result.js:196-241 | the first stock with the id takes the allotment; an unknown id changes nothing |
| WinningResult.WinningPage.constructor | pages/winning-result/winning-result.js:61-96 | a found stock sets the limit; a recorded allotment is echoed as decimal text and previewed, otherwise the field is empty and the preview zero |
| WinningResult.WinningPage.Recalculate | pages/winning-result/winning-result.js:146-165 | the preview takes the result of the current share text when it is a positive count and is otherwise kept |
| WinningResult.WinningPage.OnWinningSharesChange | pages/winning-result/winning-result.js:115-165 | a value (the parsed count, or 0) above the limit is refused and changes nothing; any other value is written back as its decimal text, and the amount and rate become that count's preview when it is positive and are kept otherwise |
| WinningResult.IsHKStock | pages/winning-result/winning-result.js:110-113 | a stock is a Hong Kong listing when its name contains 'HK' or '港股' or five consecutive digits; FiveDigitCodeIsHK and HKInNameIsHK state the two main cases |
| FundDetail.SortTime | pages/fund-detail/fund-detail.js:183-201 | the sort time is the timestamp when it is a non-zero number, otherwise the creation time |
| FundDetail.ShortDescription | pages/fund-detail/fund-detail.js:628-632 | the short form is a prefix of the note of at most 20 characters, and equals the note exactly when the note has at most 20 |
| FundDetail.DisplayDescription | pages/fund-detail/fund-detail.js:614-625 | a note is shown shortened; an empty note shows '入金' for a deposit or '出金' for any other cash record, and nothing for a business row |
| FundDetail.FundRow | pages/fund-detail/fund-detail.js:178-190 | a cash record's row keeps its type, currency, amount and status, and takes its sort time |
| FundDetail.BusinessRow | pages/fund-detail/fund-detail.js:196-219 | a business row has no currency, status 'completed', the absolute amount (not a number stays not a number) and the transaction's sort time |
| FundDetail.ColorAgreesWithLedger | pages/fund-detail/fund-detail.js:524-539 | for a positive amount and non-negative fees, a business row is green exactly when the ledger adds to the balance, red exactly when it subtracts, and neutral exactly for unknown types (see also utils/fundManager.js:152-174) |
| FundDetail.BusinessTypeTextUnknown | pages/fund-detail/fund-detail.js:387-398 | a business row of any type other than 'deposit' and 'withdraw' gets the text '未知类型', since the text is looked up on its Chinese label (see also lines 212, 515-521) |
| FundDetail.CollectRows | pages/fund-detail/fund-detail.js:174-221 | the gathered rows are the included cash records' rows, when either cash type is included, followed by all business rows, when business is included; the 'business' filter keeps exactly the business rows |
| FundDetail.CashTypeFilterShowsThatType | pages/fund-detail/fund-detail.js:177-192 | choosing 'deposit' or 'withdraw' shows only cash rows of that type (see also lines 359-363) |
| FundDetail.WindowLength | pages/fund-detail/fund-detail.js:372-383 | every date window that exists is a positive number of milliseconds |
| FundDetail.WindowsNested | pages/fund-detail/fund-detail.js:366-384 | a row inside the week window is inside the month window, which is inside the quarter and the year, which are inside 'all' |
| FundDetail.ApplyFilters | pages/fund-detail/fund-detail.js:337-356 | a row is kept exactly when it passes the currency, status and date tests, and none is added |
| FundDetail.NoFiltersKeepAll | pages/fund-detail/fund-detail.js:337-356 | with every filter at 'all' the rows are kept unchanged |
| FundDetail.CurrencyFilterHidesBusiness | pages/fund-detail/fund-detail.js:205-206 | with a currency chosen, every row kept has a currency, so no business row is shown (see also line 340) |
| FundDetail.Priority | pages/fund-detail/fund-detail.js:256-261 | the type priority is between 1 and 4 |
| FundDetail.StrLtTransitive | pages/fund-detail/fund-detail.js:281-291 | the string order used for ids and descriptions is transitive on its strict part |
| FundDetail.RowLeTotal | pages/fund-detail/fund-detail.js:241-292 | any two rows are ordered one way or the other by the comparator |
| FundDetail.RowLeTransitive | pages/fund-detail/fund-detail.js:241-292 | the comparator is transitive |
| FundDetail.RowLeTotalPreorder | pages/fund-detail/fund-detail.js:241-292 | the comparator is a total preorder, so sorting by it is well defined |
| FundDetail.LoadList | pages/fund-detail/fund-detail.js:150-292 | the list paged through is a rearrangement of the account's filtered rows, sorted by the comparator |
| FundDetail.FundDetailPage.constructor | pages/fund-detail/fund-detail.js:1-57 | the page starts on page 1 with more to show and nothing shown |
| FundDetail.FundDetailPage.LoadRecords | pages/fund-detail/fund-detail.js:305-323 | an appending load adds the page `currentPage` to what is shown; a fresh load shows the first `currentPage` pages and resets the page to 1; 'more' says whether rows remain past the last page loaded |
| FundDetail.FundDetailPage.Refresh | pages/fund-detail/fund-detail.js:85-93 | after a refresh the first page of the list is shown, page 1 is current and 'more' is exact (see also lines 102-110, 424-432) |
| FundDetail.FundDetailPage.OnReachBottom | pages/fund-detail/fund-detail.js:113-120 | with more rows and no load running, the next page of the list is appended and the page number goes up by one; otherwise nothing changes; a page showing the first pages of the list still does afterwards |
| FundDetail.FundDetailPage.OnDeleteRecordAsWritten | pages/fund-detail/fund-detail.js:473-478 | the reload after a deletion shows the first `currentPage` pages but sets the page number to 1, so a page that was past page 1 no longer shows just its pages |
| FundDetail.FundDetailPage.DeleteThenScrollAsWritten | pages/fund-detail/fund-detail.js:473-478 | deleting on page 3 with more than 60 rows left and then scrolling shows 80 rows, rows 20 to 39 of the list twice, on page 2 |
| FundDetail.FundDetailPage.OnDeleteRecord | pages/fund-detail/fund-detail.js:473-478 | with the reload starting from page 1, the page shows exactly the first page of the list after a deletion |
| FundDetail.BusinessTypeLabel | pages/fund-detail/fund-detail.js:386-397 | each of the seven business types has a non-empty label other than the type itself, and any other type is shown as itself |
| FundDetail.BusinessLabelsDistinct | pages/fund-detail/fund-detail.js:386-397 | no two business types share a label |
| FundDetail.RecordTypeText | pages/fund-detail/fund-detail.js:515-521 | the text is '未知类型' for every type except 'deposit' and 'withdraw' |
| FundDetail.AmountColorClass | pages/fund-detail/fund-detail.js:524-539 | the class is one of positive, negative and business; business exactly for a business row of an unknown type; a cash row is positive exactly for a deposit |
| FundDetail.RecordIcon | pages/fund-detail/fund-detail.js:496-512 | a business row gets the fallback icon exactly when its type is unknown; a cash row gets 💰 exactly for a deposit and 💸 otherwise |
| FundDetail.ShouldIncludeType | pages/fund-detail/fund-detail.js:359-363 | the definition of the type filter: 'all' admits every type, any other choice only that type; ApplyFilters states its use |
| FundDetail.InDateRange | pages/fund-detail/fund-detail.js:366-384 | the definition of the date filter: 'all' admits every time, each window admits times no older than its length before now; ApplyFilters states its use |
| FundDetail.RowLe | pages/fund-detail/fund-detail.js:241-292 | the definition of the row comparator: newer sort time first, then the tie-breakers in the code's order; RowLeTotalPreorder states that it is a total preorder |
| IndexPage.ProfitContributionCases | pages/index/index.js:120-137 | a finished stock adds its recorded profit; without one it adds minus its allotment fees when no shares were allotted, and 0 otherwise |
| IndexPage.TotalProfitOrderFree | pages/index/index.js:108-142 | the total profit does not depend on the order of the finished stocks, so the in-place sort does not change it |
| IndexPage.CountsCoverAccount | pages/index/index.js:108-149 | the ongoing and finished counts add up to the number of the account's stocks |
| IndexPage.OtherAccountIgnored | pages/index/index.js:96-99 | a stock of another account (a missing account id counting as 'default') changes nothing the page shows |
| IndexPage.OngoingViewShape | pages/index/index.js:114-145 | the ongoing list is a rearrangement of the account's ongoing stocks, newest first, and holds only such stocks |
| IndexPage.RecentViewShape | pages/index/index.js:116-146 | the recent list holds min(5, finished count) of the account's finished stocks, newest first |
| IndexPage.Partition | pages/index/index.js:108-138 | the one-pass loop yields exactly the ongoing stocks, exactly the finished ones, in order, and the total profit of the finished ones |
| IndexPage.IndexPage.constructor | pages/index/index.js:1-14 | the page starts with the placeholder account (id 'default', name '默认账户'), empty lists and zero counts |
| IndexPage.IndexPage.LoadCurrentAccount | pages/index/index.js:62-88 | with no stored accounts the single default account is stored; the current account is the one with the stored id (or 'default'), else the first, and always exists |
| IndexPage.IndexPage.LoadData | pages/index/index.js:90-153 | the page shows the account's ongoing stocks sorted, its five newest finished ones, both counts (adding up to the account's stocks) and the finished stocks' total profit |
| IndexPage.IndexPage.ShowStats | pages/index/index.js:108-151 | the counts are the sizes of the two parts and the total is the finished part's total profit |
| IndexPage.IndexPage.ShowLists | pages/index/index.js:140-146 | the two lists are the sorted ongoing view and the five-newest finished view |
| IndexPage.ProfitContribution | pages/index/index.js:120-137 | the definition of what one finished stock adds to the total profit: its recorded profit, else minus its allotment fees when nothing was allotted, else 0; ProfitContributionCases states the three cases |
| IndexPage.TotalProfit | pages/index/index.js:108-142 | the definition of the total profit as the sum of the contributions; TotalProfitOrderFree states that it does not depend on the order |
| IndexPage.RecentViewOmitsOlder | pages/index/index.js:142-147 | the recent list is drawn from the account's finished stocks, and every finished stock left out is no newer than any stock shown |
| Templates.AutoClean | utils/templateManager.js:209-227 | the cleaned list keeps exactly the incomplete templates and the completed ones not yet expired, and adds none |
| Templates.AutoCleanIdempotent | utils/templateManager.js:209-227 | cleaning an already cleaned list changes nothing, so reading the templates twice at the same time agrees (see also lines 13-22) |
| Templates.NewTemplate | utils/templateManager.js:55-64 | a new template has the given name and code, the parsed price, no used accounts, is not completed and expires seven days after it was made |
| Templates.Merged | utils/templateManager.js:88-92 | the merged template takes every field the patch sets and keeps the others, keeps its id and times, and gets the update time |
| Templates.WithAccount | utils/templateManager.js:150-152 | after marking, the account is in the used list, the list holds the old ids plus that one, stays free of duplicates, and is unchanged when the account was already there |
| Templates.WithAccounts | utils/templateManager.js:280 | the batch union holds exactly the old and the new ids, without duplicates |
| Templates.WithAccountsKeepsExisting | utils/templateManager.js:280 | a duplicate-free used list stays, in order, at the front of the batch union |
| Templates.Stats | utils/templateManager.js:193-203 | the stats give the account totals, the remaining count as their difference, the rounded percentage used (0 with no accounts) and the completion flag |
| Templates.StatsProgressBounded | utils/templateManager.js:201 | while no more accounts are used than exist, the progress is between 0 and 100 |
| Templates.TemplateManager.constructor | utils/templateManager.js:5-8 | the manager works on the given stored template list |
| Templates.TemplateManager.GetAllTemplates | utils/templateManager.js:13-22 | the templates read are the cleaned stored list, which is written back |
| Templates.TemplateManager.GetInProgressTemplates | utils/templateManager.js:27-30 | the incomplete templates of the cleaned list, in order |
| Templates.TemplateManager.GetCompletedTemplates | utils/templateManager.js:35-38 | the completed templates of the cleaned list, in order |
| Templates.TemplateManager.GetTemplateById | utils/templateManager.js:43-46 | the first cleaned template with the id, or none |
| Templates.TemplateManager.CreateTemplate | utils/templateManager.js:51-74 | the new template is placed before the cleaned list |
| Templates.TemplateManager.UpdateTemplate | utils/templateManager.js:79-101 | an unknown id fails and leaves the cleaned list; otherwise only the first template with the id is replaced by its merge with the patch |
| Templates.TemplateManager.DeleteTemplate | utils/templateManager.js:106-118 | every template with the id is removed, the others keep their order |
| Templates.TemplateManager.BatchDeleteTemplates | utils/templateManager.js:123-135 | every template whose id is listed is removed, and the count reported is the number of ids given |
| Templates.TemplateManager.MarkTemplateUsed | utils/templateManager.js:140-162 | an unknown template fails; otherwise the first matching template gets the account added to its used list once, through the update path |
| Templates.TemplateManager.MarkTemplateCompleted | utils/templateManager.js:167-172 | the template is marked completed at the given time, or the call fails for an unknown id |
| Templates.TemplateManager.ReactivateTemplate | utils/templateManager.js:177-182 | the template is marked not completed with no completion time, or the call fails for an unknown id |
| Templates.TemplateManager.GetTemplateStats | utils/templateManager.js:187-204 | no stats for an unknown template, otherwise the stats of the first template with the id |
| Templates.TemplateManager.CleanCompletedTemplates | utils/templateManager.js:232-245 | only the incomplete templates stay, and the count is the number removed |
| Templates.TemplateManager.IsDuplicateTemplateName | utils/templateManager.js:250-255 | true exactly when some incomplete template has the name and an id other than the excluded one |
| Templates.TemplateManager.GetUnusedAccounts | utils/templateManager.js:260-268 | the accounts whose ids the template has not used, in order; none for an unknown template |
| Templates.TemplateManager.BatchMarkTemplateUsed | utils/templateManager.js:273-290 | an unknown template fails; otherwise its used list becomes the duplicate-free union of the old list and the new ids |
| StockTemplatePage.FieldError | pages/stock-template/stock-template.js:120-147 | the form is refused for a blank trimmed name, else a blank trimmed code, else a price that is empty, unparsable or not positive, and accepted exactly when none of these holds (see also lines 208-235) |
| StockTemplatePage.EditPatch | pages/stock-template/stock-template.js:240-244 | an edit sets the trimmed name and code and the parsed price, and nothing else |
| StockTemplatePage.AcceptedFormMakesValidTemplate | pages/stock-template/stock-template.js:120-158 | a template created from an accepted form has a non-blank trimmed name and code and a positive price (see also utils/templateManager.js:55-64) |
| StockTemplatePage.TemplatePage.constructor | pages/stock-template/stock-template.js:5-19 | the page starts on the in-progress tab with nothing selected and selection mode off |
| StockTemplatePage.TemplatePage.SwitchTab | pages/stock-template/stock-template.js:68-75 | the new tab is shown, the selection is cleared and selection mode is left |
| StockTemplatePage.TemplatePage.ToggleTemplateSelection | pages/stock-template/stock-template.js:354-368 | only the clicked id changes membership; a duplicate-free selection stays so and gains the id exactly when it lacked it |
| StockTemplatePage.TemplatePage.SaveTemplate | pages/stock-template/stock-template.js:116-177 | a field error changes no template; a name used by an in-progress template is refused; otherwise the new template from the trimmed form goes first |
| StockTemplatePage.TemplatePage.SaveEdit | pages/stock-template/stock-template.js:203-266 | the same checks, with the edited template's own id left out of the duplicate test; then the edit is merged into that template, or the update fails for an unknown id |
| StockTemplatePage.TemplatePage.BatchDelete | pages/stock-template/stock-template.js:371-405 | an empty or unconfirmed selection changes nothing; otherwise the selected templates are deleted, the count is the selection's size, and the selection is cleared |
| BatchInput.WithField | pages/batch-input/batch-input.js:268-273 | the entry gets the value in the one field and keeps every other field |
| BatchInput.FoundAccounts | pages/batch-input/batch-input.js:92-104 | the collected accounts are listed accounts with the given ids, never more than the ids; when every id has an account, the k-th collected account is the first listed account with the k-th id |
| BatchInput.BatchStock | pages/batch-input/batch-input.js:312-335 | the new stock belongs to the account, is ongoing, takes the template's name and price, has hands×100 shares (0 hands when the text does not parse), and nothing allotted, sold or gained yet |
| BatchInput.SubscriptionAmount | pages/batch-input/batch-input.js:341-349 | the amount posted is shares × issue price + package fee, and is not a number when any of them is not |
| BatchInput.Posting | pages/batch-input/batch-input.js:344-355 | the posting is of type 'subscription' for the stock's account and id, with that amount, the package fee as fees and no profit |
| BatchInput.BatchStocks | pages/batch-input/batch-input.js:310-337 | the batch makes exactly one stock per selected account |
| BatchInput.BatchStocksAt | pages/batch-input/batch-input.js:310-337 | the k-th stock of the batch is the one made for the k-th selected account |
| BatchInput.BatchPostingsKinds | pages/batch-input/batch-input.js:346 | every transaction the batch posts has the type 'subscription' |
| BatchInput.Parsed | pages/batch-input/batch-input.js:313-358 | the success count is at most the number of selected accounts |
| BatchInput.PostedAccounts | pages/batch-input/batch-input.js:310-362 | only selected accounts are posted for |
| BatchInput.UnknownKindsIgnored | utils/fundManager.js:146-175 | appending transactions whose types the sign table does not know leaves every account's recomputed funds unchanged |
| BatchInput.SubscriptionsIgnored | pages/batch-input/batch-input.js:346 | appended 'subscription' transactions change nobody's recomputed funds, since the ledger only knows 'subscribe' (see also utils/fundManager.js:152) |
| BatchInput.BatchPostingsHaveNoEffect | pages/batch-input/batch-input.js:340-356 | everything a batch posts leaves every account's recomputed funds as they were, so a batch subscription never moves a balance (see also utils/fundManager.js:146-175) |
| BatchInput.Override | utils/fundManager.js:197-219 | the funds cache after the batch has exactly the old entries and the posted accounts, the posted accounts' funds recomputed and every other entry unchanged |
| BatchInput.RefreshedStep | utils/fundManager.js:197-219 | refreshing one more account is the cache with that account's entry replaced |
| BatchInput.BatchPrefixStep | pages/batch-input/batch-input.js:310-363 | the batch over k+1 accounts is the batch over k plus the stock, posting and count of the k-th |
| BatchInput.EnterAll | pages/batch-input/batch-input.js:310-363 | the loop appends the batch's stocks and postings, refreshes the posted accounts, counts a success per parsed date and a failure per other account |
| BatchInput.EnterNext | pages/batch-input/batch-input.js:310-363 | one pass of the loop grows the batch so far by the next account |
| BatchInput.EnterAccount | pages/batch-input/batch-input.js:311-362 | one account's stock is always appended; its posting and funds refresh happen exactly when its date parses |
| BatchInput.BatchInputPage.constructor | pages/batch-input/batch-input.js:56-81 | every unused account is listed and selected, each with a default entry, on step 1 |
| BatchInput.DefaultEntries | pages/batch-input/batch-input.js:91-103 | the `forEach` over the ids gives a default entry to exactly the given ids, and collects, in order, the first account found for each id |
| BatchInput.BatchInputPage.InitInputData | pages/batch-input/batch-input.js:84-109 | exactly one default entry (no hands, fee '0', today's date) per given id, replacing earlier entries, and the accounts found for those ids |
| BatchInput.BatchInputPage.ToggleAccount | pages/batch-input/batch-input.js:120-156 | only the clicked id changes membership of the selection, and every entry is re-initialised for the new selection |
| BatchInput.BatchInputPage.ToggleSelectAll | pages/batch-input/batch-input.js:159-176 | a full selection is cleared, any other becomes every account, and the entries are re-initialised |
| BatchInput.BatchInputPage.ValidateInputData | pages/batch-input/batch-input.js:219-235 | the entries pass exactly when every selected account's hands are non-empty and not a parsed number ≤ 0 |
| BatchInput.BatchInputPage.NextStep | pages/batch-input/batch-input.js:179-205 | step 1 moves to 2 only with a selection, step 2 to 3 only with valid entries, step 3 stays; the step stays within 1..3 |
| BatchInput.BatchInputPage.PrevStep | pages/batch-input/batch-input.js:208-216 | the step goes back one, never below 1 |
| BatchInput.BatchInputPage.ApplyToAll | pages/batch-input/batch-input.js:258-280 | every selected account's entry gets the source account's field, keeping its other fields; unselected entries are untouched |
| BatchInput.BatchInputPage.ProcessBatchInput | pages/batch-input/batch-input.js:296-391 | the stocks are the old ones plus one per selected account, the postings are appended, the posted accounts' funds are refreshed, the counts add up to the selection, and the template list is stored cleaned, with the template recording the selected accounts as used when its id is found |
| History.ProfitRateMeaning | pages/history/history.js:44-50 | the rate is 0 without a sale price and a cost price or with no cost; otherwise it is profit / cost as a percentage to the nearest hundredth, with the profit's sign, and not a number exactly when the profit is missing |
| History.ItemNewerOrSameIsPreorder | pages/history/history.js:55 | newest-first by creation time is a total preorder, so the sort is well defined |
| History.AllItemsShape | pages/history/history.js:33-62 | the full list is a rearrangement of the stored stocks, each with its own rate, newest first |
| History.StatusValueCases | pages/history/history.js:117-122 | 全部 (index 0) keeps every status, 打新中 (index 1) keeps 'ongoing', and every other index keeps 'finished' |
| History.FilteredMembers | pages/history/history.js:103-122 | a stock passes exactly when it is at or after the start of the start date, at or before 23:59:59 of the end date (each test only when that date is set), and has the selected status |
| History.FilteredSorted | pages/history/history.js:103-122 | filtering keeps the newest-first order |
| History.DisplayedShape | pages/history/history.js:127-131 | the page shows the first pageSize × currentPage filtered stocks (all when fewer), and there are more exactly when some are not shown |
| History.NextPageExtends | pages/history/history.js:127-180 | the next page keeps what is shown in front, and shows more when there were more |
| History.WinningRateMeaning | pages/history/history.js:157 | the winning rate is 0 without subscribed shares, otherwise allotted / subscribed as a percentage to the nearest hundredth, between 0 and 100 when no more were allotted than subscribed |
| History.CalculateStats | pages/history/history.js:140-165 | the count is the number of stocks, the total profit sums each profit (missing as 0), and the winning rate is taken over the summed allotted and subscribed shares (hands × 100 for a Hong Kong name) |
| History.HistoryPage.constructor | pages/history/history.js:3-23 | the page starts empty with no dates, status 全部 and page 1 |
| History.HistoryPage.FilterAndDisplayData | pages/history/history.js:103-138 | the shown page, the more flag and the statistics are those of the filtered list |
| History.HistoryPage.LoadAllData | pages/history/history.js:33-62 | the full list is the stored stocks with their rates, newest first, and the page shows the shown page, the more flag and the statistics (count, total profit, winning rate) of the filtered list (see also lines 103-138) |
| History.HistoryPage.OnStartDateChange | pages/history/history.js:72-77 | the start date is set and the page shows the shown page, the more flag and the statistics (count, total profit, winning rate) of the filtered list |
| History.HistoryPage.OnEndDateChange | pages/history/history.js:79-84 | the end date is set and the page shows the shown page, the more flag and the statistics (count, total profit, winning rate) of the filtered list |
| History.HistoryPage.OnStatusFilterChange | pages/history/history.js:86-91 | the status index is the parsed picker value and the page shows the shown page, the more flag and the statistics (count, total profit, winning rate) of the filtered list |
| History.HistoryPage.ResetFilter | pages/history/history.js:93-101 | no dates, status 全部, page 1, and the page shows the first page, the more flag and the statistics of all the stocks |
| History.HistoryPage.LoadMore | pages/history/history.js:171-180 | without more nothing changes; otherwise the page number grows by one and the page shows the shown page, the more flag and the statistics (count, total profit, winning rate) of the filtered list |
| History.ProfitRate | pages/history/history.js:44-50 | the definition of a stock's profit rate; ProfitRateMeaning states its cases and bounds |
| History.Filtered | pages/history/history.js:103-122 | the definition of the date and status filters; FilteredMembers and FilteredSorted state what it keeps and its order |
| History.Displayed | pages/history/history.js:127-131 | the definition of the shown page; DisplayedShape and NextPageExtends state its shape |
| History.WinningRate | pages/history/history.js:157 | the definition of the winning rate; WinningRateMeaning states its cases and bounds |
| Profile.SaveRefusals | pages/profile/profile.js:164-185 | a save is refused for a missing or blank name, and otherwise exactly when an account with another id (any id, for a new account) already has the trimmed name |
| Profile.RenameChangesOneName | pages/profile/profile.js:187-195 | renaming keeps the list's length, changes only the name of the account with the edited id to the trimmed name, and leaves every other account untouched |
| Profile.CreateAppends | pages/profile/profile.js:196-212 | creating appends one account with id 'account_' + time, the trimmed name, the creation time, and the default flag as asked; with that flag every earlier account stops being the default, otherwise they are untouched |
| Profile.RenameKeepsNamesUnique | pages/profile/profile.js:175-195 | renaming to a name no other account has keeps names unique |
| Profile.CreateKeepsNamesUnique | pages/profile/profile.js:175-212 | creating under a name nobody has keeps names unique |
| Profile.SaveKeepsNamesUnique | pages/profile/profile.js:161-227 | a successful save keeps account names unique, given unique, non-empty ids |
| Profile.SaveKeepsIdsUnique | pages/profile/profile.js:161-227 | a successful save keeps ids unique when the new id is not already taken |
| Profile.SaveKeepsOneDefault | pages/profile/profile.js:197-212 | a successful save keeps at most one default account, and a new account saved as the default is then the only one |
| Profile.ClearDefaults | pages/profile/profile.js:206 | every account keeps its fields except that it is no longer the default |
| Profile.ProfilePage.constructor | pages/profile/profile.js:3-10 | the page starts with an empty list, the placeholder default account and no dialog open |
| Profile.ProfilePage.LoadCurrentAccount | pages/profile/profile.js:56-68 | the current account is the listed one with the stored id (or 'default'), else the first |
| Profile.ProfilePage.InitializeAccounts | pages/profile/profile.js:24-45 | with no stored accounts exactly the default account is stored; the list shown is the stored one and the current account is picked from it |
| Profile.ProfilePage.LoadAccounts | pages/profile/profile.js:48-53 | the list shown is the stored one |
| Profile.ProfilePage.OnSelectAccount | pages/profile/profile.js:95-117 | the chosen account's id is stored and that account becomes current |
| Profile.ProfilePage.OnAddAccount | pages/profile/profile.js:127-136 | the dialog opens on an empty name, with no id and not as default |
| Profile.ProfilePage.OnAccountNameChange | pages/profile/profile.js:147-151 | only the dialog's name changes |
| Profile.ProfilePage.OnSetDefaultChange | pages/profile/profile.js:154-158 | the default flag is set exactly when some box is checked |
| Profile.ProfilePage.OnSaveAccount | pages/profile/profile.js:161-227 | a refused save changes nothing; otherwise the renamed or extended list is both shown and stored, and the dialog closes |
| Profile.Saved | pages/profile/profile.js:161-227 | the definition of the saved account list or the refusal; SaveRefusals, SaveKeepsNamesUnique, SaveKeepsIdsUnique and SaveKeepsOneDefault state what it guarantees |
| Compatibility.ComparePartsAntisymmetric | utils/compatibility.js:58-66 | from any index, swapping the component lists negates the loop's result exactly |
| Compatibility.ComparePartsReflexive | utils/compatibility.js:58-66 | a component list compared with itself gives 0 |
| Compatibility.ComparePartsRange | utils/compatibility.js:58-66 | the loop gives 1, -1 or the difference of the component counts |
| Compatibility.VersionOrderReflexive | utils/compatibility.js:53-67 | every version compares equal to itself |
| Compatibility.VersionOrderAntisymmetric | utils/compatibility.js:53-67 | swapping the versions negates the result, so the sign flips |
| Compatibility.VersionOrderRange | utils/compatibility.js:53-67 | the result is 1, -1 or the difference of the component counts |
| Compatibility.JoinConcat | utils/compatibility.js:54-55 | joining two non-empty lists of pieces is joining each with a separator between them |
| Compatibility.SplitDotted | utils/compatibility.js:54-55 | splitting v + '.' + w on '.' gives v's components followed by w's |
| Compatibility.PiecesConcat | utils/compatibility.js:54-55 | two lists of dot-free pieces concatenate to a list of dot-free pieces |
| Compatibility.ComparePartsExtra | utils/compatibility.js:58-66 | a list extended by extra components compares above the original by their number, and below it the other way round |
| Compatibility.VersionOrderExtraComponents | utils/compatibility.js:47-67 | the result is not limited to -1, 0 and 1 as the doc comment says: a version with appended components compares above the original by the number appended, and below it by minus that number |
| Compatibility.ThreeZeroBelowThreeZeroZero | utils/compatibility.js:72-77 | "3.0" compares below "3.0.0", so a base library reporting "3.0" is not treated as 3.0 or later |
| Compatibility.CompatibilityChecker.constructor | utils/compatibility.js:7-20 | the checker holds the given system information and API support map |
| Compatibility.CompatibilityChecker.CompareVersion | utils/compatibility.js:53-67 | the index loop with early returns computes exactly the recursive comparison |
| Compatibility.CompatibilityChecker.IsSDK3Plus | utils/compatibility.js:72-77 | false without system information or a version, otherwise true exactly when the version compares at or above "3.0.0" |
| Compatibility.CompatibilityChecker.SupportModernUserInfo | utils/compatibility.js:82-85 | true exactly when both the avatar button and the nickname input are supported |
| Compatibility.CompatibilityChecker.GetUserInfoStrategy | utils/compatibility.js:90-98 | 'modern' exactly when the modern way is supported, 'profile' exactly when it is not but getUserProfile is, and 'manual' otherwise |
| Compatibility.CompatibilityChecker.GetRecommendations | utils/compatibility.js:131-147 | one message per failing check, in the order base library, modern user info, getUserProfile, and none exactly when every check passes |
| Compatibility.CompatibilityChecker.SafeApiCall | utils/compatibility.js:155-171 | the API is called exactly when supported; the fallback exactly when one is given and the API is unsupported or threw; the result is the API's, the fallback's, or undefined |
| Compatibility.CompatibilityChecker.SafeApiCallContainsFailure | utils/compatibility.js:155-171 | a guarded call throws only when the fallback it used throws, so an API failure never escapes |
| Compatibility.ComparePartsFrom | utils/compatibility.js:58-66 | the definition of the component loop from an index; ComparePartsAntisymmetric, ComparePartsReflexive, ComparePartsRange and ComparePartsExtra state its properties |
| Compatibility.VersionOrder | utils/compatibility.js:53-67 | the definition of `compareVersion` on the split versions; VersionOrderReflexive, VersionOrderAntisymmetric, VersionOrderRange and VersionOrderExtraComponents state its properties |
| FundRecordPage.SanitizeKeepsExactlyAllowed | pages/fund-record/fund-record.js:133 | the cleaned amount holds only digits and points, and keeps every digit and point typed |
| FundRecordPage.SanitizeLeavesCleanText | pages/fund-record/fund-record.js:133 | text made only of digits and points is left as it is |
| FundRecordPage.SanitizeIdempotent | pages/fund-record/fund-record.js:133 | cleaning twice is cleaning once |
| FundRecordPage.SanitizeConcat | pages/fund-record/fund-record.js:133 | cleaning works character by character, so text typed after other text is cleaned on its own |
| FundRecordPage.ParseDateTime | pages/fund-record/fund-record.js:246-269 | the empty string reads as the current date and time |
| FundRecordPage.ParseDateTimeOf | pages/fund-record/fund-record.js:261-268 | text that splits on its first space into a date and a non-empty time is read piece by piece |
| FundRecordPage.Pad2Digits | pages/fund-record/fund-record.js:381-385 | a padded field is made of digits, exactly two of them below 100 (see also lines 183-186) |
| FundRecordPage.SplitThree | pages/fund-record/fund-record.js:263-264 | three separator-free pieces joined by the separator split back into those pieces |
| FundRecordPage.ReadDateOf | pages/fund-record/fund-record.js:263-267 | a date of three pieces free of '-' reads back as itself |
| FundRecordPage.ReadTimeOf | pages/fund-record/fund-record.js:264-267 | a time of two pieces free of ':' reads back as itself |
| FundRecordPage.ParseJoined | pages/fund-record/fund-record.js:158-179 | a date and a time whose pieces hold no space, '-' or ':' (what the pickers give) read back as themselves (see also lines 261-268) |
| FundRecordPage.FormattedRoundTrip | pages/fund-record/fund-record.js:246-269 | reading back a formatted date and time gives the date and the time that were written (see also lines 379-387) |
| FundRecordPage.FormattedFieldsReadBack | pages/fund-record/fund-record.js:379-387 | the formatted date splits into year, month and day and the time into hour and minute, each reading back as the clock's number; when the hour and the minute are below 100 the time has five characters |
| FundRecordPage.NoTimeMeansMidnight | pages/fund-record/fund-record.js:262 | a non-empty text without a space reads as midnight |
| FundRecordPage.EmptyTimeMeansMidnight | pages/fund-record/fund-record.js:262 | a date followed by a space and nothing else reads as midnight |
| FundRecordPage.MidnightReadsBack | pages/fund-record/fund-record.js:262-267 | "00:00" reads as itself |
| FundRecordPage.SecondsDropped | pages/fund-record/fund-record.js:264-267 | seconds after the minutes are dropped |
| FundRecordPage.ReadTimeDropsSeconds | pages/fund-record/fund-record.js:264-267 | reading a time keeps only its first two pieces |
| FundRecordPage.CheckedErrors | pages/fund-record/fund-record.js:272-287 | validating the amount sets its message exactly when it is empty or parses to a number ≤ 0 and removes it otherwise; any other field leaves the errors as they were |
| FundRecordPage.AmountCheckMeaning | pages/fund-record/fund-record.js:272-287 | validating the amount succeeds exactly when it is not invalid |
| FundRecordPage.SanitizedAmountError | pages/fund-record/fund-record.js:130-140 | for cleaned text, the error shows exactly for empty text and for a value of zero (see also lines 276-282) |
| FundRecordPage.BalanceCheckOnlyForNewWithdrawal | pages/fund-record/fund-record.js:300-316 | editing a record or entering a deposit never consults the balance |
| FundRecordPage.AcceptedWithdrawalIsCovered | pages/fund-record/fund-record.js:300-316 | an accepted new withdrawal has a current account whose available balance in the currency covers the amount (see also utils/fundManager.js:288-318) |
| FundRecordPage.EditPatch | pages/fund-record/fund-record.js:330-338 | an edit sets every field of the form, with the description trimmed |
| FundRecordPage.EditPatchOverwrites | pages/fund-record/fund-record.js:330-341 | a record edited through the form takes every field of the form and keeps its id and creation time (see also utils/fundManager.js:93-97) |
| FundRecordPage.FundRecordPage.constructor | pages/fund-record/fund-record.js:5-26 | the page starts as a new, completed Hong Kong dollar deposit with nothing entered and no errors |
| FundRecordPage.FundRecordPage.LoadCurrentAccount | pages/fund-record/fund-record.js:55-63 | the current account is the one with the stored id (or 'default'), else the first, else none |
| FundRecordPage.FundRecordPage.ValidateField | pages/fund-record/fund-record.js:272-287 | the errors are recomputed and the field passes exactly when it has no message |
| FundRecordPage.FundRecordPage.OnAmountInput | pages/fund-record/fund-record.js:130-140 | the cleaned text is stored and validated |
| FundRecordPage.FundRecordPage.OnDateChange | pages/fund-record/fund-record.js:158-167 | the picked date is stored and the date-time rebuilt with the current time, or 09:00 without one |
| FundRecordPage.FundRecordPage.OnTimeChange | pages/fund-record/fund-record.js:170-188 | the picked time is stored and the date-time rebuilt with the current date, or today's without one |
| FundRecordPage.FundRecordPage.ValidateForm | pages/fund-record/fund-record.js:290-319 | the amount error is recorded, and the form passes exactly when the amount is valid and, for a new withdrawal, the balance covers it |
| FundRecordPage.FundRecordPage.OnSave | pages/fund-record/fund-record.js:322-371 | a refused form, a missing account or an amount that is not a number stores nothing; a new record is appended with the trimmed description and the parsed timestamp and its account's funds recomputed; an edit merges the form into the record with that id, or fails when there is none |
| FundRecordPage.Sanitize | pages/fund-record/fund-record.js:133 | the definition of the amount cleaning; SanitizeKeepsExactlyAllowed, SanitizeIdempotent and SanitizeConcat state its properties |
| FundRecordPage.FormatDateTime | pages/fund-record/fund-record.js:379-387 | the definition of the formatted date and time; FormattedRoundTrip and FormattedFieldsReadBack state that it reads back |
| FundRecordPage.ReadDate | pages/fund-record/fund-record.js:263-267 | the definition of reading a date by its '-' pieces; ReadDateOf states that three clean pieces read back |
| FundRecordPage.ReadTime | pages/fund-record/fund-record.js:264-267 | the definition of reading a time by its ':' pieces; ReadTimeOf and ReadTimeDropsSeconds state its cases |
| FundRecordPage.FormAccepted | pages/fund-record/fund-record.js:290-319 | the definition of the form verdict; ValidateForm and BalanceCheckOnlyForNewWithdrawal state its use and its cases |
| JsText.Trim | pages/profile/profile.js:164-200 | the trimmed text occurs in the original, has no white space at either end, and is empty exactly when the original is all white space |
| JsText.TrimIdempotent | pages/stock-template/stock-template.js:145-156 | trimming an already trimmed name changes nothing |
| JsText.JoinSplit | utils/compatibility.js:54-55 | joining the pieces of a split restores the text |
| JsText.SplitJoin | pages/fund-record/fund-record.js:263-267 | splitting pieces joined by a separator they do not contain gives the pieces back |
| JsText.ParseIntToString | pages/history/history.js:88 | reading an integer's decimal form with parseInt gives the integer back |
| JsText.ParseCentsOfInt | pages/batch-input/batch-input.js:328 | parseFloat of an integer's decimal form is that many whole units |
| JsText.ParsePad2 | pages/fund-record/fund-record.js:183-186 | a zero-padded field reads back as its number |
| Money.RoundDiv | pages/sell-record/sell-record.js:238-243 | Math.round of a quotient: the integer nearest to it, halves going up |
| Money.RoundDivMonotone | pages/sell-record/sell-record.js:238-243 | rounding a quotient is monotone in the numerator |
| Money.ToFixedCents | pages/sell-record/sell-record.js:186-193 | toFixed(2) of an amount in cents is within half a cent of it, and not negative for a non-negative amount |
| Money.ToFixedCentsWhole | pages/add-stock/add-stock.js:150-153 | a whole number of cents is unchanged by toFixed(2) |
| Records.OwnerOf | pages/index/index.js:97-98 | a stock belongs to its account id when it has a non-empty one, otherwise to 'default' |
| Records.DefaultAccount | pages/index/index.js:66-74 | the account created when none exist has the id 'default' and is the default (see also pages/profile/profile.js:28-36) |
| Records.CurrentAccount | pages/index/index.js:78 | the current account is a listed account: the first listed one with the id when there is one, else the first of the list, and none only for an empty list (see also pages/profile/profile.js:59) |
| Records.NewerOrSameIsPreorder | pages/index/index.js:141-142 | newest-first by creation time is a total preorder |
| Sorting.SortBy | pages/index/index.js:141-142 | sorting gives a rearrangement of the list that is ordered by the comparator (see also pages/history/history.js:55) |
| Sorting.FilterSorted | pages/history/history.js:103-122 | filtering a sorted list leaves it sorted |
| Sorting.StrLeTransitive | pages/fund-detail/fund-detail.js:281-291 | the character-code order standing for localeCompare is transitive |
| Seqs.Toggle | pages/stock-template/stock-template.js:354-368 | toggling appends an absent element, removes a present one, leaves every other element's membership alone, and keeps a duplicate-free list so (see also pages/batch-input/batch-input.js:131-144) |
| Seqs.Dedup | utils/templateManager.js:280 | the deduplicated list has no duplicates and holds exactly the original's elements |
| Seqs.FirstIndex | utils/templateManager.js:82 | findIndex gives -1 or an index whose element matches, with no match before it (and none at all for -1) (see also utils/fundManager.js:87) |
| Seqs.SumPermutation | utils/fundManager.js:133-175 | a sum does not depend on the order of its terms |
| Seqs.FilterPartition | pages/index/index.js:108-118 | two complementary filters split a list: their lengths add up to its length |
| JsText.ParseInt | pages/winning-result/winning-result.js:116 | the definition of `parseInt`; ParseIntToString states that an integer's decimal form reads back |
| JsText.ParseCents | pages/sell-record/sell-record.js:263 | the definition of `parseFloat` to the nearest cent; ParseCentsOfInt states that an integer's decimal form reads back as whole units |
| JsText.Split | utils/compatibility.js:54-55 | a split has at least one piece and no piece holds the separator; JoinSplit and SplitJoin state the round trips |
| Sorting.SortByStable | pages/index/index.js:141-143 | the sort is stable: the elements the comparator cannot tell apart keep their input order, as `Array.prototype.sort` does |
| Sorting.InsertStable | pages/index/index.js:141-143 | inserting into a sorted list puts the new element after every element equivalent to it |
| Sorting.SortedPrefixKeepsFirst | pages/index/index.js:142-147 | the first n elements of a sorted list may each come before every element left out |

## Findings

| source | as written | input that shows it | evidently intended | confidence | as-written member | corrected member |
|---|---|---|---|---|---|---|
| pages/sell-record/sell-record.js:177-183 | `totalFees` is the buy fees plus the sell fees, and the profit is then the sale minus the cost minus the buy fees minus `totalFees`, so the buy fees are subtracted twice | a lot of 1000 allotted shares with HK$100.00 of allotment fees, sold whole at its issue price: the page reports a profit of −HK$200.00 − the sell fees instead of −HK$100.00 − the sell fees | each fee subtracted once: profit = sale − cost − buy fees − sell fees, as the comment beside the line says | high; not executed | SellRecord.CalculateProfitAsWritten, with SellRecord.BuyFeesCountedTwice and SellRecord.BuyFeesCountedTwiceExample | SellRecord.CalculateProfit, with SellRecord.FullSaleChargesWholeBuyFee; SellRecord.SubmitSale uses it |
| pages/fund-detail/fund-detail.js:473-478 | `onDeleteRecord` calls `loadRecords()` without first setting `currentPage` back to 1; `loadRecords` shows the first `currentPage` pages and then sets `currentPage` to 1 | on page 3 with 70 records, delete one: 60 rows are shown on page 1; the next scroll to the bottom appends rows 20 to 39 again, so they appear twice | reload from page 1, as `onShow`, `applyFilter` and `onPullDownRefresh` do, so the shown rows stay the first pages of the list | medium; not executed | FundDetail.FundDetailPage.OnDeleteRecordAsWritten, with FundDetail.FundDetailPage.DeleteThenScrollAsWritten | FundDetail.FundDetailPage.OnDeleteRecord |

## Left out

- Storage, UI and platform calls (`wx.getStorageSync`/`setStorageSync`, `setData`, toasts, modals, navigation, `console`, `setTimeout`, the `getApp()` globals) are not modelled: stores are classes whose fields hold what storage holds, and a handler's effect on the page is the new value of the page's fields.
- The clock (`Date.now()`, `new Date()`), date parsing and date formatting are parameters (`now`, `parseTime`, `nowText`, a clock reading per account) or are left out; the date/time formatting helpers of every page (`formatDate`, `formatTime`, `formatDateTime`, `formatDetailDateTime`, `formatBusinessDateTime`, `formatSmartDate`) are not modelled.
- IEEE floating point is not modelled: amounts are whole cents and fee rates exact rationals, so artefacts of `Math.round(x * 100) / 100` on binary fractions do not appear.
- JsText.ParseCents: an amount is read to the nearest cent, so a positive amount below half a cent reads as 0 and is refused as non-positive, and `parseFloat`'s exponent forms and `parseInt`'s hexadecimal forms are not recognised.
- String comparison with `localeCompare` is modelled as code-point order, and strings are sequences of Unicode scalar values (`seq<char>`), not of UTF-16 code units as in JavaScript; no case folding or normalisation.
- FundDetail.ShortDescription: the 20-character limit counts code points, where `description.length` and `substring` count UTF-16 code units, so a note with characters outside the Basic Multilingual Plane (emoji, say) is cut later than the program cuts it, and the program can split a surrogate pair.
- Type-keyed lookup tables (`typeMap[type] || type` and the like) are modelled as plain tables: keys inherited from `Object.prototype`, such as 'constructor', are not.
- Generated identifiers (`Date.now().toString()` plus random digits, `generateRecordId`, `generateTransactionId`, `generateId`) are inputs; the program can in principle generate the same id twice, which the model does not exclude except where a lemma states freshness as its premise.
- `app.js`, the login pages (`pages/login/`) and the fund-management page are not part of this model.
- Compatibility: `init`, `checkAPISupport` and `generateReport` query the running platform and are left out; only the version comparison and the fallbacks are modelled.
- Ledger: `formatAmount` and `formatDateTime` are display helpers and are not modelled; the plain getters `getAllFundRecords`, `getAccountFundRecords` and `getAccountBusinessTransactions` are the store fields and the functions `Ledger.RecordsOf` and `Ledger.TransactionsOf`.
- Ledger.FundManager.UpdateFundRecord: as in the code, only the account the record belongs to after the update is recomputed (an account it was moved away from keeps a stale cache entry) and `timestamp` is not refreshed; the contract states exactly that rather than a fully consistent cache.
- No allotment or sale posting reaches the ledger, and there is no stamp-duty ceiling or percentage commission: the code has none of these.
- In-place sorts (`Array.prototype.sort` on a fresh copy) are modelled as the value `Sorting.SortBy` returns; aliasing of the sorted array is not modelled.
- Index page: `addWinningResult`, `sellStock`, `viewDetail` and the other buttons only navigate and are not modelled.
- Add-stock page: `loadStockData`, `onStatusChange` (a confirmation dialog), the `editRecord`/`addWinning`/`addSell` navigation and the input handlers are not modelled.
- AddStock.BuildStock: a subscription-hands text that does not parse is stored as 0 hands, where the program would store `NaN`.
- BatchInput.BatchStock: an unparsable hands text passes the batch validation and the program stores `subscriptionHands: NaN`; the model stores 0 hands. Storage keeps only JSON values, so the stored `NaN` reads back as `null`, which the history page multiplies to 0 subscribed shares as History.CalculateStats does; only a page still holding the unsaved `NaN` in memory would see a `NaN` subscribed total and report a winning rate of 0.
- SellRecord.SubmitSale: the saved profit is the corrected preview of SellRecord.CalculateProfit, each fee counted once; the program saves the preview as written, which is lower by the prorated buy fees (see Findings).
- BatchInput.Posting: the posting's `businessDate` is the entered "yyyy-mm-dd 10:00" text, where the program stores `toISOString()` of the parsed date; that formatting is left out with the other date formatting.
- IndexPage.IndexPage.constructor: the placeholder account of the page data has only an id and a name; the model fills `isDefault` with false and the creation time with 0.
- Winning-result page: `onDateChange`, `onTimeChange` and `onCancel` are not modelled.
- Sell-record page: `loadStockInfo`, `onSellPriceChange`, `onSellSharesChange`, `onDateChange`, `finishStock` and `onCancel` are not modelled; the profit they would show live is the as-written figure of `SellRecord.CalculateProfitAsWritten`, and `SellRecord.CalculateProfit` is the intended one (see Findings).
- History: `viewDetail` and `addNewStock` only navigate; a stored profit that is `null` and one that is `undefined` are both `None`, so for a stored `null` profit History.ProfitRate gives `None` (the `NaN` figure) where the program's `null / cost` gives the rate "0.00"; a status-picker index outside 0..2 reads as the finished filter, as the code's last branch does.
- Profile: `getUserInfo`, `onSwitchAccount`, `onCloseAccountModal`, `onManageAccounts`, `onCloseAddAccountModal`, `onLogin`, `onLogout`, `performLogout`, `onAbout` and `onFeedback` are platform dialogs or navigation and are not modelled; an initial account without a creation time reads it as 0.
- FundRecordPage.FundRecordPage.OnSave: an amount text such as "." passes `validateField` and the program would store `NaN`; the model refuses it with `AmountNotANumber` instead.
- Fund-record page: `onLoad`, `loadRecord`, `initDateTime`, the set-date-and-time shortcuts, `getTitle`, `onDescriptionInput`, `showDateTimePicker` and the `fundsChanged` flag handed back to the previous page are not modelled.
- Fund-detail page: `loadAccountInfo`, `loadAccountFunds`, the filter panel's `showFilterModal`, `closeFilterModal` and `onFilterChange` (the chosen filters are the parameter of `FundDetail.ApplyFilters`), `onEditRecord`, the confirmation dialog and the business-row refusal of `onDeleteRecord`, and the description dialogs are not modelled (the deletion itself is Ledger.FundManager.DeleteFundRecord, the reload after it FundDetail.FundDetailPage.OnDeleteRecordAsWritten); `applyFilter` is `FundDetail.FundDetailPage.Refresh`, and `resetFilter` is the same after the four filters are set back to 'all'.
- FundDetail.FundDetailPage.LoadRecords: a non-appending load uses the current page number for the window's end before resetting it to 1, as the code does.
- Stock-template page: `loadTemplates`, `formatDateTime`, the modal handlers, the input handlers, `editTemplate`, `deleteTemplate`, `markAsCompleted`, `reactivateTemplate`, `enterSelectionMode`, `exitSelectionMode`, `cleanCompletedTemplates`, `useTemplate` and `batchInputAll` are not modelled beyond the template-manager operations they call.
- Batch-input page: `onInputChange`, `onDateChange` and `submitBatchInput` are not modelled; the page assumes the fund manager is present, and `processBatchInput` with no selected template is not modelled.
