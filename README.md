# haru lending ledger — a verified model

haru is a lending ledger with a web front end. Users invest principal in lots.
Every day each lot running on that day repays 1/365 of its principal. It also
accrues interest at annual rates: 60% for the owner, 12% for the inviter and 24%
for the center. The admin routes turn these accruals into one payout row per
recipient and day in payout_transfers. A deposit run then draws the day's
repayment from the user's open principal lots, largest daily amount first. It
logs each draw in repayment_logs and credits the day's payout to the user's
asset_ledger. A user's holdings are the sum of that ledger. The pages read the
same tables back: the wallet page, the repayment and deposit histories and the
admin ledger.

This project models that core in Dafny. It covers:

- the payout routes, the deposit run and the payout library;
- the daily interest and harumoney summary routes, and the rate resolution;
- the asset-history helpers, the wallet folds, the cash exchange and the history pages;
- the front-end rules: pass periods and expiry dates, subscription expiry, the shop cart,
  bank-account validation, referral codes and the admin repayment form.

Conventions of the model:

- Money is an exact `real`. Rounding steps of the source (`toFixed(2)`,
  `Math.round(x * 100) / 100`, `Math.floor(n * 100) / 100`, `Math.trunc`) are
  written out.
- A `YYYY-MM-DD` day is the number YYYYMMDD (`Common.Date`). For well-formed
  texts it orders days as the source's string comparisons do.
- JavaScript `Date` arithmetic (`Calendar`) keeps the carry of out-of-range days
  and months.
- A datastore table with a unique key is a `map` on that key, and an upsert is a
  map update (`Store`). Query results the code iterates are sequences passed in.
  A JavaScript `Map` accumulator is an insertion-ordered association list
  (`Tally`).
- Inputs the code takes from outside become parameters: the clock and "today",
  the order in which the store returns rows, the answers to confirmation
  dialogs, and identifiers the store assigns.
- Route handlers return their response together with the new tables.
  State-changing loops are methods with invariants, proved against the functions
  that specify them.

## Model

| member | source | states |
|---|---|---|
| Tally.AddFacts | src/app/api/admin/payouts/route.ts:119-122 | `m.set(k, (m.get(k) ?? 0) + v)` keeps one entry per key, raises the entry of k by v and no other, and raises the sum of all entries by v |
| Tally.PutGet | src/app/api/admin/harumoney/route.ts:28 | `m.set(k, v)` makes k read v and leaves every other key |
| Tally.CollectFacts | src/app/harumoney/repayments/page.tsx:48-53 | summing rows into a map by key gives one entry per distinct key, holding the sum of that key's rows, and the entries add up to the sum of all rows |
| Tally.LatestFacts | src/app/api/admin/harumoney/route.ts:26-28 | overwriting a map row by row leaves each key holding its last row's value, and only the keys some row has |
| Tally.UnionKeysFacts | src/app/api/admin/payouts/route.ts:134-137 | the union of two maps' keys lists every key of either exactly once |
| Tally.SumOverKeys | src/app/api/admin/payouts/route.ts:134-145 | turning a map into one row per key neither loses nor double-counts an entry |
| Common.Lower | src/app/api/register/route.ts:46 | lower-casing keeps the length and lower-cases each character |
| Common.TrimStart | src/app/settings/bank/page.tsx:97-99 | removes exactly the leading white space: what is dropped is all white space, and what is left does not start with white space |
| Common.TrimEnd | src/app/settings/bank/page.tsx:97-99 | removes exactly the trailing white space: what is dropped is all white space, and what is left does not end with white space |
| Common.TextBeforeTotal | src/app/api/admin/payouts/route.ts:19 | two different ref_codes are always ordered one way or the other, so `.order("ref_code")` is a total order |
| Common.TextBeforeTransitive | src/app/api/admin/payouts/route.ts:19 | the text order is transitive |
| Common.TextBeforeAsymmetric | src/app/admin/repayments/page.tsx:105 | of two texts at most one comes before the other |
| Common.NotBeforeTransitive | src/app/admin/repayments/page.tsx:105 | "not before" (after or equal) is transitive, so a descending order is consistent |
| Common.SortTexts | src/app/api/admin/payouts/route.ts:19 | distinct texts are put in ascending order, as a permutation of the input |
| Common.WholeCentsUnique | src/lib/interest.ts:13-15 | two whole cent amounts less than a cent apart are equal, so each rounding bound pins its result |
| Common.Decimal | src/app/api/register/route.ts:29 | a whole number's text is a run of digits without a leading zero that reads back as the number |
| Common.RunLength | src/app/api/register/route.ts:25 | the digits `parseInt` reads: a run of digits at the front, followed by a non-digit or the end |
| Swap.HandleSubmit | src/app/home/swap/SwapClient.tsx:23-91 | no wallet, a zero, negative or non-numeric amount, an amount above the balance, or no ref_code each stop with nothing written; otherwise a pending cash_exchanges row is appended and the (ref, today, "cashout") ledger row becomes its old amount (0 when absent) minus the amount |
| Swap.CashoutBalance | src/app/home/swap/SwapClient.tsx:65-81 | a cash-out lowers the user's holdings by exactly its amount and leaves every other user's holdings alone |
| Swap.CashoutsAccumulate | src/app/home/swap/SwapClient.tsx:65-81 | two cash-outs on one day share one ledger row holding the old amount minus both (accumulated, not replaced); no other key changes |
| Store.Directory | src/app/api/admin/payouts/route.ts:58-65 | the ref_code maps hold exactly the users' ref_codes, each mapped to one of its rows |
| Store.DirectoryLast | src/app/api/admin/payouts/route.ts:58-65 | the last row of a ref_code wins: a row with no later row of its ref_code is the one the map holds |
| Store.SumsBalanced | src/app/api/admin/payouts/route.ts:151-155 | when every row's total is repayment plus interest, the total sum is the repayment sum plus the interest sum (see also lines 211-215) |
| Store.TransferWrites | src/lib/payouts.ts:56-61 | one write per row, keyed (ref_code, transfer_date) |
| Store.UnnamedWrites | src/app/api/admin/payouts/calc/route.ts:65-71 | one write per row, keyed (ref_code, transfer_date), keeping the user_name stored under the key |
| Store.UnnamedUpsertFacts | src/lib/payouts.ts:56-61 | upserting rows with distinct keys stores each one with its amounts and the name stored before, leaves every other row alone, and repeating it changes nothing |
| Store.FindLog | src/app/api/admin/payouts/deposit/route.ts:97-102 | finds the stored log colliding on (ref_code, investment_id, repay_date, source), none when no row collides |
| Store.UpsertLogKeeps | src/app/api/admin/payouts/deposit/route.ts:97-105 | a log upsert keeps the unique key unique and leaves exactly the new row under its key |
| Store.PutAllTwice | src/app/api/admin/payouts/deposit/route.ts:109-114 | replaying a batch of replace-upserts changes nothing |
| Store.BalanceAfterPut | src/app/wallet/page.tsx:130-134 | writing one of the user's ledger keys moves the holdings by the new value minus what the key held |
| Store.BalanceOtherUser | src/app/wallet/page.tsx:130-134 | writing another user's ledger key does not move this user's holdings |
| Wallet.TruncInt | src/app/wallet/page.tsx:46-48 | Math.trunc: cuts toward zero, within one below a non-negative value and within one above a negative value (see also lines 21, 66-68) |
| Wallet.Trunc2 | src/app/wallet/page.tsx:24 | cuts to a whole number of cents toward zero: the largest cent amount at most v for v ≥ 0, the smallest at least v for v < 0, keeping the sign |
| Wallet.Trunc2Odd | src/app/wallet/page.tsx:24 | trunc2(−v) = −trunc2(v) |
| Wallet.VirtualBalanceIsBalance | src/app/wallet/page.tsx:122-134 | in whatever order the user's ledger rows come back, their sum is the user's holdings |
| Wallet.TodayMoneyOf | src/app/wallet/page.tsx:194-217 | today's amount is Σ today_repay over today's rows, and today is paid iff some row's lower-cased status is sent, success or completed |
| Wallet.DoneIgnoresCase | src/app/wallet/page.tsx:208-211 | "Sent" counts as paid, "Paid" and a missing status do not |
| Wallet.FetchCumulativeRepay | src/app/wallet/page.tsx:220-242 | the method with its reassigned done list computes the cumulative repayment function |
| Wallet.CumulativeRepayFacts | src/app/wallet/page.tsx:231-237 | with a completed row the sum covers exactly the completed rows; with none it covers every row |
| Wallet.FetchRemainingFromRepayments | src/app/wallet/page.tsx:245-272 | the method with its reassigned sum computes the remaining-principal function; 0 without a ref code |
| Wallet.RemainingFacts | src/app/wallet/page.tsx:257-268 | the remaining principal is the active rows' sum when that is non-zero, otherwise the sum over every row |
| Wallet.StatusNormalised | src/app/wallet/page.tsx:258-263 | a status reading "active" in any letter case, padded with white space, counts as active |
| Wallet.DisplayedRemainingFacts | src/app/wallet/page.tsx:61-64 | the shown remaining is the remaining amount, plus today's planned amount while unpaid, cut toward zero to the cent |
| AssetHistory.Round2 | src/lib/assetHistory.ts:33 | `Math.round(x * 100) / 100` is a whole number of cents within half a cent of x, a half cent rounding up (see also lines 149-155) |
| AssetHistory.NormalizeAmount | src/lib/assetHistory.ts:31-34 | a whole number of cents, never negative, 0 for a non-number, otherwise within half a cent of the absolute value |
| AssetHistory.NormalizeSignless | src/lib/assetHistory.ts:32 | an amount and its negation normalise alike |
| AssetHistory.NormalizeZeroIff | src/lib/assetHistory.ts:31-64 | an amount normalises to 0 exactly when it is under half a cent either way |
| AssetHistory.ResolveDirection | src/lib/assetHistory.ts:24-43 | an explicit "in" or "out" is kept; anything else gives the type's default: in for haru_deposit, out for reinvest_withdraw and cash_withdraw |
| AssetHistory.AddAssetHistory | src/lib/assetHistory.ts:46-91 | a zero normalised amount inserts nothing and reports "amount_zero"; otherwise exactly the payload row is appended |
| AssetHistory.PayloadFacts | src/lib/assetHistory.ts:69-80 | a recorded row has a positive amount, direction "in" or "out", the type's label as memo when none was given, the user's ref and the day of the write |
| AssetHistory.BatchRows | src/lib/assetHistory.ts:102-119 | the batch has at most as many rows as items |
| AssetHistory.BatchIsOneByOne | src/lib/assetHistory.ts:102-119 | the batch rows are exactly the rows the single inserts would append, zero items dropped, order kept |
| AssetHistory.AddAssetHistoryBatch | src/lib/assetHistory.ts:94-129 | the batch rows are appended and their number reported; an all-zero batch writes nothing and reports 0 |
| AssetHistory.GetAssetHistoryTotals | src/lib/assetHistory.ts:132-157 | totalIn is the rounded sum of the user's "in" rows, totalOut that of its "out" rows (other directions ignored), balance the rounded difference |
| AssetHistory.TotalsNonneg | src/lib/assetHistory.ts:140-147 | with no negative amounts stored, neither total is negative |
| AssetHistory.RecordMovesTotals | src/lib/assetHistory.ts:63-91 | recording an entry raises its user's unrounded "in" or "out" total, by direction, by the normalised amount; other users' totals do not move (see also lines 140-147) |
| AssetHistory.AddHaruDeposit | src/lib/assetHistory.ts:184-198 | a deposit is recorded with direction "in" and its default memo |
| AssetHistory.AddReinvestWithdraw | src/lib/assetHistory.ts:201-215 | a reinvest withdrawal is recorded with direction "out" and its default memo |
| AssetHistory.AddCashWithdraw | src/lib/assetHistory.ts:218-232 | a cash withdrawal is recorded with direction "out" and its default memo |
| AssetLedgerPage.ReasonLabel | src/app/admin/asset-ledger/page.tsx:47-58 | payout, cashout and topup get their fixed labels, anything else "자산 변동" |
| AssetLedgerPage.Filtered | src/app/admin/asset-ledger/page.tsx:60-69 | a blank trimmed, lower-cased key keeps every row; otherwise a row is kept iff its date, label or amount text contains the key, each kept row as often as it occurs, in the original order |
| AssetLedgerPage.FilteredAppend | src/app/admin/asset-ledger/page.tsx:60-69 | filtering keeps the order of the rows: filtering a + b is filtering a, then b |
| AssetLedgerPage.InTotal | src/app/admin/asset-ledger/page.tsx:71-73 | totalIn is the sum of the positive amounts |
| AssetLedgerPage.OutTotal | src/app/admin/asset-ledger/page.tsx:74-76 | totalOut is the sum of the magnitudes of the negative amounts |
| AssetLedgerPage.TotalsFacts | src/app/admin/asset-ledger/page.tsx:71-77 | both totals are ≥ 0 and balance = totalIn − totalOut is the plain sum of the shown amounts |
| History.InsertFacts | src/app/harumoney/repayments/page.tsx:55-56 | inserting a new date into a newest-first list keeps it newest first and adds exactly that entry and amount |
| History.SortDescFacts | src/app/harumoney/repayments/page.tsx:55-57 | sorting the date map keeps every date with its amount and the total, and lists the dates strictly newest first |
| History.MergeByDate | src/app/harumoney/repayments/page.tsx:47-53 | the forEach sums the logs into one entry per repay_date |
| History.RepaymentLogs | src/app/harumoney/repayments/page.tsx:29-59 | with no ref nothing is read and the rows stay empty; otherwise the rows are the ref's logs summed per date, newest first; the total is the sum of the rows |
| History.MergedFacts | src/app/harumoney/repayments/page.tsx:48-57 | the merged rows are strictly newest first, one per date the data has, each the sum of that date's amounts, with a total equal to the sum of all the data |
| History.RepaymentPageFacts | src/app/harumoney/repayments/page.tsx:29-57 | a ref's rows: one per date of its logs, newest first, each the sum of that date's logs; the displayed total equals the sum of its raw logs |
| History.MergeDeposits | src/app/harumoney/deposits/deposits-client.tsx:42-48 | the forEach sums the ledger rows into one entry per transfer_date |
| History.Deposits | src/app/harumoney/deposits/deposits-client.tsx:23-54 | with no ref nothing is read; otherwise the rows are the ref's "payout" ledger rows summed per date, newest first; the total is the sum of the rows |
| History.DepositPageFacts | src/app/harumoney/deposits/deposits-client.tsx:23-52 | only the ref's "payout" rows count; one row per date, newest first, each the sum of that date's rows; the total equals the sum of the raw payout rows |
| Interest.Truncate2 | src/lib/interest.ts:13-15 | `Math.floor(n * 100) / 100` is the largest whole number of cents at most n: at most n and more than n − 0.01 |
| Interest.Truncate2Idempotent | src/lib/interest.ts:13-15 | truncating twice is truncating once |
| Interest.Truncate2Negative | src/lib/interest.ts:13-15 | negatives are cut downward (−0.005 gives −0.01) and positives too (1.239 gives 1.23) |
| Interest.LatestStart | src/lib/interest.ts:39-45 | the chosen candidate is one of the candidates and none starts later |
| Interest.FindCurrent | src/lib/interest.ts:47 | the row found is a row of that role with no end_date; none is found only when no such row exists |
| Interest.CandidatesFacts | src/lib/interest.ts:37-44 | the candidates are exactly the rows of the role in force on asOf (started, end null or ≥ asOf), and the chosen one is in force with no later start |
| Interest.PickFacts | src/lib/interest.ts:36-51 | an override in force wins with the latest start; else a global row in force with the latest start; else the current global row whatever its start; an error exactly when none of the three exists |
| Interest.GetActiveRates | src/lib/interest.ts:20-54 | succeeds iff all three roles resolve, and then carries the three resolved rates; without a ref code no override is consulted |
| Interest.OverrideBeatsGlobal | src/lib/interest.ts:37-40 | a user override in force beats a global row even when the global row starts later |
| Interest.FallbackIgnoresStart | src/lib/interest.ts:47-48 | with nothing in force, a current global row is used though it starts after asOf |
| Interest.OutstandingPrincipal | src/lib/interest.ts:57-73 | a whole number of cents, at most invested minus repaid up to the end of asOf and less than a cent below it |
| Interest.OutstandingNotClamped | src/lib/interest.ts:70-72 | repaying 150 on 100 invested gives −50: the principal is not clamped at 0 |
| PayoutsLib.PrincipalByRefFacts | src/lib/payouts.ts:14-22 | a user's principal is the sum of invest_amount_usdt over that user's lots with invest_date ≤ date ≤ maturity_date, and a user has an entry iff it owns such a lot |
| PayoutsLib.RepayByRefFacts | src/lib/payouts.ts:24-34 | a user's repayment is the sum of that user's repayment amounts dated the day, and a user has an entry iff one exists |
| PayoutsLib.SumPrincipal | src/lib/payouts.ts:14-22 | the loop over the lots builds the principal-per-user map |
| PayoutsLib.SumRepaid | src/lib/payouts.ts:31-34 | the loop over the day's repayments builds the repayment-per-user map |
| PayoutsLib.LibRows | src/lib/payouts.ts:37-53 | one row per key of the union of both maps, in the union's order |
| PayoutsLib.LibRowsFacts | src/lib/payouts.ts:37-53 | every row is pending for the date, interest = principal·1.2/365, repayment from the map, total = interest + repayment; no ref twice; a ref has a row iff it is in either map (see also lines 4) |
| PayoutsLib.LibRowsSums | src/lib/payouts.ts:37-53 | the rows' columns add up to the repayment total, the principal total times 1.2/365, and their sum |
| PayoutsLib.LibRepaySum | src/lib/payouts.ts:41 | the repayment column adds up to the repayment map's total |
| PayoutsLib.LibInterestSum | src/lib/payouts.ts:39-40 | the interest column adds up to 1.2/365 of the principal map's total |
| PayoutsLib.PayoutRowsFacts | src/lib/payouts.ts:14-53 | one pending row per user with a running lot or a repayment that day, none twice; interest is 1.2/365 of the user's running principal, repayment the user's repayments of the day, total the two |
| PayoutsLib.PayoutRowsSums | src/lib/payouts.ts:14-53 | the day's repayment sum is every repayment dated that day, its interest sum 1.2/365 of all running principal, its total the two |
| PayoutsLib.CalculateAndSavePayouts | src/lib/payouts.ts:7-63 | the rows are returned either way; they are upserted keyed (ref_code, transfer_date) only when commit is not false and there are rows |
| PayoutsLib.SaveFacts | src/lib/payouts.ts:56-61 | saving stores each row under its key (keeping a stored user_name), leaves other days alone, and saving the same day again changes nothing |
| PayoutsLib.CommitPayouts | src/lib/payouts.ts:77-84 | the day's pending rows become completed with every other column kept; every other row is unchanged; no key is added or removed |
| PayoutsLib.CommitPayoutsFacts | src/lib/payouts.ts:77-84 | after confirming, no row of the day is pending, and confirming again changes nothing |
| PayoutsCalc.Accrue | src/app/api/admin/payouts/calc/route.ts:19-33 | the loop builds the repayment and interest maps over the lots with invest_date ≤ date ≤ maturity_date |
| PayoutsCalc.CalcRows | src/app/api/admin/payouts/calc/route.ts:36-49 | one row per key of the union of both maps, in the union's order |
| PayoutsCalc.BuildRows | src/app/api/admin/payouts/calc/route.ts:36-49 | the loop that pushes the rows produces exactly those rows |
| PayoutsCalc.InterestIsSixTenths | src/app/api/admin/payouts/calc/route.ts:27-31 | every owner's interest is 0.6 of its repayment, and an owner has an interest entry iff it has a repayment entry |
| PayoutsCalc.DayRowsFacts | src/app/api/admin/payouts/calc/route.ts:22-49 | one pending row per owner of a running lot, none twice, no name; repayment is Σ P/365 over the owner's running lots, interest 0.6 of that (nothing to inviter or center), total the two |
| PayoutsCalc.DayRowsSums | src/app/api/admin/payouts/calc/route.ts:52-60 | the reported sums are Σ P/365 and Σ 0.6·P/365 over running lots and their total |
| PayoutsCalc.Post | src/app/api/admin/payouts/calc/route.ts:6-73 | a malformed date is a 400 with no write; commit false writes nothing and reports count, sums and the first ten rows; commit true or absent upserts the rows keyed (ref_code, transfer_date) |
| PayoutsCalc.SampleFacts | src/app/api/admin/payouts/calc/route.ts:61 | the sample is a prefix of the rows of at most ten, and all the rows when there are at most ten |
| PayoutsCalc.CommitFacts | src/app/api/admin/payouts/calc/route.ts:65-71 | committing stores each owner's row under (ref_code, date), leaves other days alone, and committing the same day again changes nothing |
| PayoutsRoute.LotShares | src/app/api/admin/payouts/route.ts:88-116 | a paying lot repays P/365 and earns P·0.60/365 for its owner, P·0.12/365 for the inviter and P·0.24/365 for the center, the last two 0 without an inviter or center; the row is pending, for the date and the lot |
| PayoutsRoute.RawRowsFacts | src/app/api/admin/payouts/route.ts:83-117 | rawRows holds exactly one row per lot with both dates, invest_date ≤ date ≤ maturity_date and a positive principal |
| PayoutsRoute.RepayByFacts | src/app/api/admin/payouts/route.ts:119 | each owner's repayment entry is the sum of its rows' repayments, the entries add up to all the rows' repayments, and an owner has an entry iff it owns a row (see also lines 177) |
| PayoutsRoute.InterestByFacts | src/app/api/admin/payouts/route.ts:178-187 | each recipient's interest entry is its share of every row (owner's, inviter's, center's), the total is all the interest handed out, and a ref has an entry iff some row credits it (see also lines 120-122) |
| PayoutsRoute.CreditsSumTo | src/app/api/admin/payouts/route.ts:120-122 | summing the interest credits per recipient equals summing each row's share for that recipient, and all credits add up to all interest handed out |
| PayoutsRoute.CreditsReach | src/app/api/admin/payouts/route.ts:181-186 | a ref is credited iff some row names it as owner, inviter or center (see also lines 121-122) |
| PayoutsRoute.AddAllCredits | src/app/api/admin/payouts/route.ts:120-122 | adding a row's credit list is the three conditional map updates of the source |
| PayoutsRoute.Accrue | src/app/api/admin/payouts/route.ts:83-123 | the loop over the lots builds rawRows and the two per-recipient maps that are the fold of rawRows |
| PayoutsRoute.FanIn | src/app/api/admin/payouts/route.ts:168-188 | the commit loop's maps are the same fold over the day's stored rows |
| PayoutsRoute.RecipientRows | src/app/api/admin/payouts/route.ts:134-150 | one row per key of the union of both maps, in the union's order (see also lines 190-204) |
| PayoutsRoute.RecipientRowsFacts | src/app/api/admin/payouts/route.ts:191-215 | every row is pending, for the date, with the recipient's name, its map entries as repayment and interest, and total = repayment + interest; no ref twice; a ref has a row iff it is in either map; the sums are the maps' totals (see also lines 138-155) |
| PayoutsRoute.AggWrites | src/app/api/admin/payouts/route.ts:127-131 | the upsert batch has one write per per-lot row |
| PayoutsRoute.SelectAggDay | src/app/api/admin/payouts/route.ts:161-165 | the rows read are the stored rows of that agg_date, each once, in an order the store chooses |
| PayoutsRoute.Post | src/app/api/admin/payouts/route.ts:45-217 | a malformed date is a 400 with no write; commit unset or false gives the preview run; commit true gives the commit run over the day's stored rows |
| PayoutsRoute.RawRowsSums | src/app/api/admin/payouts/route.ts:83-123 | rawRows' repayments add up to Σ P/365 over paying lots, and their interest to each lot's owner share plus the inviter and center shares where present |
| PayoutsRoute.PreviewConservation | src/app/api/admin/payouts/route.ts:126-157 | the preview's repayment sum is Σ P/365 over paying lots, its interest sum all the interest those lots hand out, and its total sum the two together |
| PayoutsRoute.PreviewRecipients | src/app/api/admin/payouts/route.ts:118-150 | each preview row holds its owner's repayments and the interest every row credits to it, total = repay + interest, and a ref has a row iff some lot credits it |
| PayoutsRoute.PreviewRerun | src/app/api/admin/payouts/route.ts:127-131 | previewing the same day again leaves daily_aggregates as the first preview left it |
| PayoutsRoute.CommitTwiceFails | src/app/api/admin/payouts/route.ts:206-209 | commit is a plain insert: repeating a commit that stored rows fails and stores nothing |
| PayoutsRoute.Get | src/app/api/admin/payouts/route.ts:7-42 | a malformed date is a 400; otherwise every stored row of the day is listed once, in ascending ref_code order, a missing status read as "pending", and the sums are the folds of the listed columns |
| PayoutsRoute.DayCodes | src/app/api/admin/payouts/route.ts:15-19 | the ref_codes stored for the day, each exactly once, in ascending order |
| PayoutsRoute.CommitListed | src/app/api/admin/payouts/route.ts:191-207 | every row a successful commit inserts is listed back by GET unchanged (see also lines 22-29) |
| PayoutDeposit.OrderByDaily | src/app/api/admin/payouts/deposit/route.ts:41 | the lots come back as a permutation of the input, ordered by daily_amount, largest first |
| PayoutDeposit.InsertByDaily | src/app/api/admin/payouts/deposit/route.ts:41 | inserting a lot into a list ordered by daily_amount keeps it ordered and adds exactly that lot |
| PayoutDeposit.ActiveLots | src/app/api/admin/payouts/deposit/route.ts:36-41 | the lots read are exactly the user's rows with status "active", in descending daily_amount order |
| PayoutDeposit.PortionsFacts | src/app/api/admin/payouts/deposit/route.ts:55-79 | each draw is between 0 and what its lot can give (remaining principal, daily cap); the draws add up to at most the day's repayment; either the repayment is used up or every lot gave all it could |
| PayoutDeposit.PortionsBounded | src/app/api/admin/payouts/deposit/route.ts:58-63 | a positive draw never exceeds the lot's remaining principal nor, when set, its daily amount |
| PayoutDeposit.PortionsGreedy | src/app/api/admin/payouts/deposit/route.ts:55-79 | the total drawn is at most the repayment, and falls short only when every lot was drawn to its limit |
| PayoutDeposit.Exhausted | src/app/api/admin/payouts/deposit/route.ts:56 | once nothing is left to repay the loop draws nothing and emits no update and no log |
| PayoutDeposit.UpdatesFacts | src/app/api/admin/payouts/deposit/route.ts:65-68 | every update names a lot of the list and sets its remaining principal to the old value minus a positive draw, never below zero |
| PayoutDeposit.LogsFacts | src/app/api/admin/payouts/deposit/route.ts:70-77 | exactly one log per update, each a positive amount for the user on the run's date with status "paid" and source "payout" |
| PayoutDeposit.AllocationExample | src/app/api/admin/payouts/deposit/route.ts:55-80 | lots with 100 and 50 remaining, caps 30 and 20, and 45 to repay give draws of 30 then 15 |
| PayoutDeposit.AllocateLots | src/app/api/admin/payouts/deposit/route.ts:44-80 | the loop's updates, logs and leftover are those of the draw sequence; the leftover is the repayment minus what was drawn |
| PayoutDeposit.SetRemaining | src/app/api/admin/payouts/deposit/route.ts:84-89 | an update by id changes principal_remaining on the rows with that id and nothing else |
| PayoutDeposit.ApplyUpdatesFrame | src/app/api/admin/payouts/deposit/route.ts:83-95 | after the updates every row is unchanged or carries the remaining principal of an update naming its id |
| PayoutDeposit.Targets | src/app/api/admin/payouts/deposit/route.ts:24 | a payout row is processed iff its today_repay is positive |
| PayoutDeposit.LedgerAfterRun | src/app/api/admin/payouts/deposit/route.ts:107-118 | the ledger after the run is the old ledger with each target's positive total_amount upserted under (ref_code, date, "payout") |
| PayoutDeposit.DepositLedgerIdempotent | src/app/api/admin/payouts/deposit/route.ts:107-118 | posting the same day twice leaves the asset ledger as one post left it |
| PayoutDeposit.PayOneCredit | src/app/api/admin/payouts/deposit/route.ts:107-118 | the user's holdings rise by the whole total_amount less any earlier credit for that day, and no other user's holdings move |
| PayoutDeposit.PayOneRepayments | src/app/api/admin/payouts/deposit/route.ts:55-95 | a run leaves every lot unchanged or lowers the remaining principal of one of the user's active lots, never below zero |
| PayoutDeposit.SecondRunDrawsAgain | src/app/api/admin/payouts/deposit/route.ts:84-94 | a second run of the same day draws on the lot again (100 to 70 to 40) while the ledger stays as the first run left it |
| PayoutDeposit.PayOneDailyDraw | src/app/api/admin/payouts/deposit/route.ts:55-95 | a single active lot whose daily amount fits the repayment and its principal loses exactly its daily amount |
| PayoutDeposit.SelectDay | src/app/api/admin/payouts/deposit/route.ts:18-21 | the rows returned are the day's payout_transfers rows, each once, in an order the store chooses |
| PayoutDeposit.PayRecipient | src/app/api/admin/payouts/deposit/route.ts:30-118 | one pass of the loop body has the effect of the per-user run: allocate, update lots, upsert logs, credit the ledger |
| PayoutDeposit.PayTargets | src/app/api/admin/payouts/deposit/route.ts:30-119 | the loop over the targets is the per-user runs in order, with the three counters accumulated |
| PayoutDeposit.Deposit | src/app/api/admin/payouts/deposit/route.ts:10-127 | a malformed date is a 400 with no write; otherwise the tables and counters are those of the run over the day's targets |
| DailyInterests.RateFor | src/app/api/admin/daily-interests/route.ts:11-51 | a role's rate is the annual_rate of the first current row of that role, the fallback when that rate is null or there is no such row |
| DailyInterests.FallbackRates | src/app/api/admin/daily-interests/route.ts:11 | with no current rate rows the rates are 60/36/24 |
| DailyInterests.SumInvested | src/app/api/admin/daily-interests/route.ts:35-59 | the sumBy loop over investments up to the date builds the per-user invested map |
| DailyInterests.SumRepaid | src/app/api/admin/daily-interests/route.ts:39-60 | the sumBy loop over repayments up to the date builds the per-user repaid map |
| DailyInterests.BuildPreview | src/app/api/admin/daily-interests/route.ts:66-111 | the user loop produces the preview rows of the users with principal left, in user order |
| DailyInterests.PreviewRows | src/app/api/admin/daily-interests/route.ts:66-89 | every row belongs to a user and is accrued: base = invested − repaid > 0, each interest = base × annual rate / 365 (no division by 100), all three on the user's own row, total = the three; no more rows than users |
| DailyInterests.PreviewCovers | src/app/api/admin/daily-interests/route.ts:66-71 | every user whose invested minus repaid is positive gets a row |
| DailyInterests.SumsBalanced | src/app/api/admin/daily-interests/route.ts:114-125 | when every row's total is its three interests, the total sum is the three interest sums together |
| DailyInterests.InterestWrites | src/app/api/admin/daily-interests/route.ts:130-133 | one write per row, keyed (ref_code, interest_date) |
| DailyInterests.Post | src/app/api/admin/daily-interests/route.ts:19-141 | a malformed date is a 400 with no write; commit unset or false writes nothing and reports the count, the six sums and the first 20 rows; commit true upserts the rows keyed (ref_code, interest_date) |
| DailyInterests.ReportBalanced | src/app/api/admin/daily-interests/route.ts:114-125 | the report's total_interest sum equals the user, referral and center sums together (see also lines 76) |
| DailyInterests.CommitRerun | src/app/api/admin/daily-interests/route.ts:130-135 | committing the same day twice stores the same rows as once |
| HarumoneyRoute.CollectInterest | src/app/api/admin/harumoney/route.ts:22-29 | the forEach over the day's interest rows builds the interest map, each user's last row winning |
| HarumoneyRoute.IntMapHas | src/app/api/admin/harumoney/route.ts:26-29 | a user has an interest entry iff it has an interest row that day |
| HarumoneyRoute.BuildSummary | src/app/api/admin/harumoney/route.ts:32-43 | one row per key of the union of both maps, in the union's order |
| HarumoneyRoute.Get | src/app/api/admin/harumoney/route.ts:6-45 | the date is the one asked for, else today; the rows are the summary over the union of that day's repayment-sum and interest maps |
| HarumoneyRoute.SummaryRows | src/app/api/admin/harumoney/route.ts:33-43 | no user is listed twice, a user is listed iff it has a repayment or an interest row that day, and each row's total is its repayment plus its interest |
| HarumoneyRoute.SummaryAmounts | src/app/api/admin/harumoney/route.ts:16-36 | a user's repayment is the sum of its repayments that day (0 without any); its interest is the user_interest of its last row that day, 0 without any |
| HarumoneyRoute.InterestOverwrites | src/app/api/admin/harumoney/route.ts:28 | two interest rows of one user and day report the second amount, not their sum |
| PassPurchase.Compact | src/components/PassPurchaseModal.tsx:67 | removes exactly the white space and zero-width characters: every other character is kept as often as it occurs, none is added, and a text without them is unchanged |
| PassPurchase.CompactAppend | src/components/PassPurchaseModal.tsx:67 | the other characters keep their order: compacting a + b is compacting a, then b |
| PassPurchase.SumMatches | src/components/PassPurchaseModal.tsx:73-78 | the regex exec loop adds up the number of every "N<marker>" match, left to right |
| PassPurchase.ParsePeriod | src/components/PassPurchaseModal.tsx:65-81 | unlimited iff the compacted text contains "무제한", and then 0 months and 0 days; otherwise months is the sum of every "N개월" and days of every "N일" |
| PassPurchase.MarkedNone | src/components/PassPurchaseModal.tsx:73-78 | a text in which the marker never occurs adds nothing |
| PassPurchase.NumberMarked | src/components/PassPurchaseModal.tsx:73-78 | a number followed by the marker adds that number, whatever follows |
| PassPurchase.NumberUnmarked | src/components/PassPurchaseModal.tsx:73-78 | a number not followed by the marker adds nothing |
| PassPurchase.MarkedSkip | src/components/PassPurchaseModal.tsx:73-78 | characters that are not digits are passed over |
| PassPurchase.ThreeMonths | src/components/PassPurchaseModal.tsx:73-78 | "3개월" is three months and no days |
| PassPurchase.MonthsAndBonusDays | src/components/PassPurchaseModal.tsx:73-78 | "6개월+15일" is six months and fifteen days |
| PassPurchase.YearGivesNothing | src/components/PassPurchaseModal.tsx:73-80 | "1년" has no marker and parses to 0 months and 0 days |
| PassPurchase.AfterMonths | src/components/PassPurchaseModal.tsx:85-101 | the day is a real date whose year·12 + month is the base's plus the months, with the base day cut to the target month's last day |
| PassPurchase.AfterMonthsAt | src/components/PassPurchaseModal.tsx:85-91 | the carried year (floor of month/12), the month mod 12 and min(day, end of month) name the same day |
| PassPurchase.EndOfMonth | src/components/PassPurchaseModal.tsx:90 | day 0 of the next month is the last day of the month |
| PassPurchase.MonthCarry | src/components/PassPurchaseModal.tsx:87 | ((m % 12) + 12) % 12 is m % 12 |
| PassPurchase.AddMonthsAndDays | src/components/PassPurchaseModal.tsx:83-105 | the result is a real date exactly `days` days after the month-shifted day; with no days it is that day, and with neither months nor days the base itself |
| PassPurchase.ComputeExpiry | src/components/PassPurchaseModal.tsx:107-115 | unlimited gives the base day in 2099 (29 February becomes 1 March); otherwise the parsed months and days are added; a period with no marker gives the base date |
| PassPurchase.PreviewExpired | src/components/PassPurchaseModal.tsx:168-173 | "무제한" exactly for an unlimited period; otherwise the key of the day the parsed months and days after today |
| PassPurchase.Dec | src/components/PassPurchaseModal.tsx:269 | never below 1, and one less above 1 |
| PassPurchase.Inc | src/components/PassPurchaseModal.tsx:270 | never above 99, and one more below 99 |
| PassPurchase.DigitsOnly | src/components/PassPurchaseModal.tsx:272 | only digits are kept, nothing is added, and an all-digit text is unchanged |
| PassPurchase.OnChangeQty | src/components/PassPurchaseModal.tsx:271-275 | the quantity is always within 1..99, and is the typed number when that is in range |
| PassPurchase.QuantityFacts | src/components/PassPurchaseModal.tsx:269-275 | dec and inc keep the quantity within 1..99 and undo each other inside the range; typing a number of the range gives that number |
| PassPurchase.PurchaseGate | src/components/PassPurchaseModal.tsx:175-183 | no wallet stops first; the transfer goes ahead iff there is a wallet and the balance is not below max(1, qty) × price, which then never exceeds the balance (see also lines 129-131) |
| Calendar.DaysIn | src/components/PassPurchaseModal.tsx:90 | every month has 28 to 31 days |
| Calendar.MakeDate | src/components/PassPurchaseModal.tsx:93-103 | new Date(y, m, n) and setDate(n) always give a real date, carrying a day past the month's end into the next months |
| Calendar.MakeValid | src/components/PassPurchaseModal.tsx:84 | a real date is built as itself |
| Calendar.MakeDateOrdinal | src/components/PassPurchaseModal.tsx:103 | day n of a month is the n-th day after the month starts, however far past its end n reaches |
| Calendar.MonthStartNext | src/components/PassPurchaseModal.tsx:103 | the next month starts right after the last day of this one |
| Calendar.KeyOrder | src/components/MySubscriptionsCard.tsx:50-53 | comparing YYYY-MM-DD texts orders days as time does, and equal texts are the same day |
| Calendar.OrdinalInYear | src/components/MySubscriptionsCard.tsx:50-53 | a day's number falls within its year |
| Calendar.JsDate.constructor | src/components/PassPurchaseModal.tsx:93-101 | new Date(y, m, n) holds the carried-over date |
| Calendar.JsDate.Copy | src/components/PassPurchaseModal.tsx:84-110 | new Date(base) holds the same day |
| Calendar.JsDate.SetDate | src/components/PassPurchaseModal.tsx:103 | setDate(n) moves to day n of the current month, carried over |
| Calendar.JsDate.SetFullYear | src/components/PassPurchaseModal.tsx:111 | setFullYear(y) keeps month and day in year y, carried over when that day does not exist there |
| Subscriptions.OneYearLater | src/components/MySubscriptionsCard.tsx:20-27 | the day a year later (same month and day, 29 February becoming 28 February) is always a real calendar date; AddOneYearKST is proved to compute it |
| Subscriptions.OneYearLaterSpan | src/components/MySubscriptionsCard.tsx:21-27 | a year later is 365 or 366 days later |
| Subscriptions.AddOneYearKST | src/components/MySubscriptionsCard.tsx:21-27 | setFullYear(year + 1) then setDate(0) when the month moved gives exactly that day a year later |
| Subscriptions.FormatExpired | src/components/MySubscriptionsCard.tsx:40-47 | the expiry is a year after created_at_kst, else created_at, else now; the stored pass_expired_at is ignored |
| Subscriptions.IsActive | src/components/MySubscriptionsCard.tsx:50-53 | a row is active iff today is not later than its expiry day |
| Subscriptions.VisibleRows | src/components/MySubscriptionsCard.tsx:86-89 | all rows when showAll is set, otherwise the first five (or all when fewer) (see also lines 18) |
| Subscriptions.Toggle | src/components/MySubscriptionsCard.tsx:139-147 | the button appears iff there are more than five rows |
| Subscriptions.ToggleOffersHidden | src/components/MySubscriptionsCard.tsx:139-147 | collapsed, the button offers exactly rows.length − 5 more, the hidden rows |
| Shopping.Find | src/app/shopping/page.tsx:89-99 | finds an entry exactly when the cart holds the id, and the entry found is in the cart with that id |
| Shopping.QtyAbsent | src/app/shopping/page.tsx:89 | qtyOf of an id not in the cart is 0 |
| Shopping.Add | src/app/shopping/page.tsx:90-96 | an id in the cart has its quantity raised by one in place, the other entries unchanged; an absent id is appended with quantity 1 |
| Shopping.Sub | src/app/shopping/page.tsx:97-100 | an id not in the cart leaves the cart as it is |
| Shopping.SubDrops | src/app/shopping/page.tsx:101 | with quantity at most 1 the entry is removed, the count falls by one and other ids keep their quantity |
| Shopping.SubLowers | src/app/shopping/page.tsx:102 | with quantity above 1 the entry's quantity falls by one in place, the count falls by one and other ids keep their quantity |
| Shopping.CountBump | src/app/shopping/page.tsx:94-105 | bumping a present id by d moves cartCount by d; an absent id leaves it |
| Shopping.CountRemove | src/app/shopping/page.tsx:101-105 | removing an id takes exactly its quantity off cartCount |
| Shopping.AddFacts | src/app/shopping/page.tsx:89-105 | add keeps ids unique and quantities at least 1, raises cartCount and the id's qtyOf by one and leaves other ids' qtyOf alone |
| Shopping.SubFacts | src/app/shopping/page.tsx:89-105 | sub keeps ids unique and quantities at least 1, lowers cartCount by one iff the id is in the cart, lowers that id's qtyOf and leaves other ids' qtyOf alone |
| Shopping.SubAddRoundTrip | src/app/shopping/page.tsx:90-103 | on a well-formed cart, sub after add gives back the original cart |
| Shopping.Distinct | src/app/shopping/page.tsx:74 | `Array.from(new Set(xs))` holds the same values as xs, each once |
| Shopping.CategoriesOf | src/app/shopping/page.tsx:74 | one category per product, in order |
| Shopping.Categories | src/app/shopping/page.tsx:73-76 | "전체" first, followed by every product category, each exactly once |
| Shopping.InsertBy | src/app/shopping/page.tsx:83-85 | inserting into a sorted list keeps it sorted and adds exactly the one product |
| Shopping.SortBy | src/app/shopping/page.tsx:83-85 | the sort returns a permutation of the list ordered by the chosen comparator |
| Shopping.Filtered | src/app/shopping/page.tsx:78-87 | a product is listed iff it is in the catalogue, its category is 전체 or the chosen one and its lower-cased title contains the trimmed lower-cased query; every kept product appears as often as in the catalogue, in the order of price or rating the page chose |
| Bank.Validate | src/app/settings/bank/page.tsx:96-104 | "" iff the trimmed holder, bank and number are non-empty and the untrimmed number matches `^[0-9\- ]{6,30}$`; otherwise the message of the first check that fails, in the order holder, bank, number, format |
| Bank.OnSave | src/app/settings/bank/page.tsx:109-129 | saved iff validation passes and there is a ref_code, otherwise refused with the validation message (or the ref_code message) and the table untouched; a save puts the payload under the ref_code and keeps every other row |
| Bank.Upsert | src/app/settings/bank/page.tsx:126-129 | the row keyed by ref_code is replaced or added and every other row stays |
| Bank.SavedRow | src/app/settings/bank/page.tsx:101-123 | a saved row has non-empty trimmed holder, bank and number, a non-empty user_name (userName, else the holder) and a number made only of digits, dashes and spaces |
| Bank.TrimmedAccountChars | src/app/settings/bank/page.tsx:101-122 | trimming a number of account characters leaves only account characters |
| Bank.SaveIdempotent | src/app/settings/bank/page.tsx:126-129 | saving the same form twice leaves the table as one save does: one row per user |
| Bank.PaddedNumberStoredShort | src/app/settings/bank/page.tsx:101-122 | the format is checked before trimming, so " " followed by five digits passes and is stored with five characters, below the six the format asks for |
| Register.ParseInt | src/app/api/register/route.ts:25 | on a non-empty run of digits `parseInt` gives their decimal value |
| Register.ParseIntDigits | src/app/api/register/route.ts:25 | `parseInt` of digits followed by a non-digit, or by nothing, is the digits' value: it stops at the first non-digit |
| Register.ParseIntSigned | src/app/api/register/route.ts:25 | a leading "-" before such digits negates their value and a leading "+" is dropped |
| Register.ParseIntSkipsSpace | src/app/api/register/route.ts:25 | a leading white-space character does not change the result |
| Register.ParseIntNaN | src/app/api/register/route.ts:25 | an empty text, or one that starts with neither white space, a sign nor a digit, is NaN |
| Register.GenerateNextReferralCode | src/app/api/register/route.ts:11-30 | "HM1001" with no user or a latest code not starting with "HM"; otherwise "HM" followed by parseInt of the suffix plus one, or "HMNaN" when the suffix is not a number (the code NextReferralCode names) |
| Register.NextCodeAfter | src/app/api/register/route.ts:23-29 | the next referral code after "HM" followed by n is "HM" followed by n + 1 |
| Register.NonNumericSuffix | src/app/api/register/route.ts:24-26 | the next referral code after "HM" followed by a suffix that starts with neither white space, a sign nor a digit is "HMNaN" |
| Register.FindByWallet | src/app/api/register/route.ts:49-53 | a user is found only with that wallet address, and none is found only when no user has it |
| Register.FindByRef | src/app/api/register/route.ts:73-78 | a referrer is found only with that ref_code, and none is found only when no user has it |
| Register.FindAppended | src/app/api/register/route.ts:113-131 | once inserted, a new wallet's lookup finds the inserted row (see also lines 49-53) |
| Register.Post | src/app/api/register/route.ts:32-142 | 400 without a wallet address; an address already registered (after lower-casing) returns its id and ref_code and inserts nothing; otherwise exactly one row is appended with the new id, the lower-cased address, ref_by defaulting to "HM1001", email "" and phone "01000000000" by default, the trimmed name or null, the referrer's non-empty center_id else "HM1001", the referrer's name and center name, the next referral code after the latest one and today as joined date, and the response carries that id and ref_code |
| AdminRepayments.HalfUp | src/app/admin/repayments/page.tsx:96 | the nearest whole number of cents of a non-negative amount, within half a cent |
| AdminRepayments.Fixed2 | src/app/admin/repayments/page.tsx:78-116 | `Number(x.toFixed(2))` is a whole number of cents within half a cent of x and keeps its sign |
| AdminRepayments.Fixed2Odd | src/app/admin/repayments/page.tsx:78 | rounding a negative amount mirrors rounding its magnitude |
| AdminRepayments.Fixed2Cents | src/app/admin/repayments/page.tsx:78-116 | a whole number of cents is unchanged |
| AdminRepayments.Fixed2Monotone | src/app/admin/repayments/page.tsx:78 | rounding keeps the order of amounts |
| AdminRepayments.Fixed2Positive | src/app/admin/repayments/page.tsx:78 | an amount rounds above zero iff it is at least half a cent |
| AdminRepayments.InvestSum | src/app/admin/repayments/page.tsx:82-97 | 0 when the query fails, otherwise the user's invest_amount_usdt (null as 0) summed and rounded to cents |
| AdminRepayments.LoadedLogs | src/app/admin/repayments/page.tsx:100-106 | the user's logs newest first by repay_date, as many as the user has up to 200, each a row of that user in the table |
| AdminRepayments.InsertByDate | src/app/admin/repayments/page.tsx:105 | a log put among logs listed newest first keeps them newest first and adds exactly that log |
| AdminRepayments.SortNewestFirst | src/app/admin/repayments/page.tsx:105 | `.order("repay_date", { ascending: false })` lists the logs newest first, as a permutation of them |
| AdminRepayments.SortNewestFirstSum | src/app/admin/repayments/page.tsx:105 | sorting the logs keeps their sum |
| AdminRepayments.UserLogs | src/app/admin/repayments/page.tsx:100-105 | the query before its limit: exactly the user's rows, newest first |
| AdminRepayments.UserLogsCount | src/app/admin/repayments/page.tsx:100-105 | each log of the user is read as often as it is stored |
| AdminRepayments.PrefixIsNewest | src/app/admin/repayments/page.tsx:105-106 | a log a newest-first prefix leaves out is no newer than any log in it |
| AdminRepayments.LoadedAreNewest | src/app/admin/repayments/page.tsx:100-106 | the 200 loaded logs are the newest: a log of the user that was left out is no newer than any loaded one |
| AdminRepayments.RepaySum | src/app/admin/repayments/page.tsx:108-116 | 0 when the query fails, otherwise within half a cent of the loaded amounts' sum |
| AdminRepayments.RepaySumAllLogs | src/app/admin/repayments/page.tsx:100-116 | with at most 200 logs the repaid sum is the rounded sum of all the user's logs |
| AdminRepayments.Principal | src/app/admin/repayments/page.tsx:77-79 | never negative; 0 iff invested minus repaid is below half a cent, else that difference rounded to cents |
| AdminRepayments.PrincipalFalls | src/app/admin/repayments/page.tsx:77-79 | more repaid never leaves more principal |
| AdminRepayments.HandleSave | src/app/admin/repayments/page.tsx:134-161 | inserts iff a user is selected, the amount is a number above 0, a date is given and the amount is within the principal or confirmed; otherwise the first failing check's message, or nothing when the over-principal question is declined; the log has the amount, date, status "completed", investment_id null |
| AdminRepayments.OverPrincipalConfirmed | src/app/admin/repayments/page.tsx:141-146 | an amount above the principal is never rejected: confirmed it is inserted |
| AdminRepayments.SaveAddsRepayment | src/app/admin/repayments/page.tsx:152-161 | the insert raises the user's repaid total by the amount and leaves every other user's total |

## Left out

- Floating point: money is exact, so the source's binary rounding errors are not modelled. Neither is `toFixed(6)` on payout amounts, nor BigInt token units.
- Datastore failures: the 500 responses and thrown errors after a failed query are not modelled. Neither is `maybeSingle` failing when several rows match.
- Concurrency: the updates that run under `Promise.all` are applied one after another.
- Time zones: the Korea-time helpers and the time of day are not modelled. The day they produce is a parameter (`today`, `now`, the default date of the harumoney summary).
- `parsePeriod`'s NFKC normalisation, which folds full-width digits and compatibility characters, is not modelled. Lower-casing is ASCII only.
- The `0x` hexadecimal prefix of `parseInt` is not modelled, and neither is JavaScript's reading of two-digit years in `new Date`.
- Blockchain calls are outside the model: the token transfer of the pass purchase, `ensureGasIfNeeded`, `fetchUSDTBalance` and the payout sending route (src/app/api/payouts/run/route.ts). The wallet balance is a parameter.
- The column probing of the daily interest route (src/app/api/admin/daily-interests/route.ts:92-110) is not modelled. The model writes every column of the current schema, and the old annual_rate/amount layout is not modelled.
- Row ids and created_at times are not modelled. They are parameters where the response returns them.
- Number-to-text formatting (`String(amount)`, `toLocaleString`) is not modelled. The asset ledger search takes each row's amount text as part of the row.
- `Array.prototype.sort` is modelled as a stable sort by the comparator's key, which is what ECMAScript 2019 and later require for a consistent comparator. The shop's price and rating comparators (src/app/shopping/page.tsx:83-85) are consistent, so Shopping.SortBy gives the engine's order, ties included. The date sorts of the deposit and repayment histories order the keys of a map, which are distinct, so ties do not arise. Only the comparator of src/lib/interest.ts:39 and :44 never returns 0, and it leaves equal start_dates in an order the engine chooses (see the Interest.LatestStart line).
- The datastore's `.order("ref_code")` is modelled as character-code order, which is the C collation. A database set to another collation may order ref_codes differently.
- `commit` in the request bodies of the payout and daily-interest routes is taken to be a JSON boolean or absent. In the source, `null`, `0` or `""` is falsy and takes the preview path (src/app/api/admin/payouts/calc/route.ts:8). The model cannot express those values.
- The register request body (src/app/api/register/route.ts:34-40) is modelled with `None` for a field the JSON leaves out, and the defaults apply to exactly those fields. The source applies the defaults only to `undefined`, so an explicit JSON `null` for email, phone, ref_by or name is stored as null, and `ref_by: null` looks up no referrer. The model cannot express such a `null`.
- HarumoneyRoute.Get takes the summary date as a `Date` or none. The source (src/app/api/admin/harumoney/route.ts:9) does not check the `date` text, so a malformed date matches no row and gives an empty summary. The model cannot express a malformed date there.
- AdminRepayments.LoadedLogs: among logs with the same repay_date, which fall within the 200 follows the model's insertion order. The store's choice among ties is unspecified.
- `isFinite` and NaN checks on numeric columns: a null or non-numeric column is `None` and reads as 0 where the code writes `|| 0` or `?? 0`.
- The bank page's initial load of the saved account and the user's name (src/app/settings/bank/page.tsx:33-88) is not modelled. The name and ref_code are parameters.
- The admin repayment page: `loadRepaymentStatuses`, the delete handler and the user list are display plumbing and are not modelled. `Number(amount)` of the typed text is given as an optional number.
- The cron and sending routes, the admin pages outside the core, and all rendering are not modelled.
- Interest.LatestStart: among candidates with the same start_date the model takes the first one listed. The store's choice among ties is unspecified.
- Subscriptions.OneYearLater: its own contract states only that the result is a real date. The month-and-day rule is carried by AddOneYearKST, which is proved to compute it through JavaScript's setFullYear and setDate(0), and by OneYearLaterSpan.
- AdminRepayments.RepaySum: it states closeness to the sum, within half a cent, rather than the exact rounded value. RepaySumAllLogs gives the exact value when all the logs are loaded.
